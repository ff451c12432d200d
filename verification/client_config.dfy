/**
  Translation of transport configurations: SMTP options between nodemailer's
  `auth {user, pass}` and worker-mailer's `credentials {username, password}`,
  and the SES client configuration for the SDK (node) and for `aws4fetch` (edge).
 */
module ClientConfig {
  import opened Values
  import Defu

  /** `auth` is an object that has both a `user` and a `pass` key. */
  predicate HasUserPass(auth: Value) {
    auth.Obj? && "user" in auth.fields && "pass" in auth.fields
  }

  /** worker-mailer credentials built from nodemailer auth. */
  function CredentialsFrom(auth: Value): Value
    requires HasUserPass(auth)
  {
    Obj(map["username" := auth.fields["user"], "password" := auth.fields["pass"]])
  }

  /** nodemailer auth built from worker-mailer credentials. */
  function AuthFrom(credentials: Value): Value {
    Obj(map["user" := Prop(credentials, "username"), "pass" := Prop(credentials, "password")])
  }

  /**
    `toWorkerMailerConfig`: `credentials` defaults to the one derived from
    `auth {user, pass}`, then every input key is copied over it, so a
    `credentials` key present in the input, whatever its value, is kept.
   */
  function ToWorkerMailerConfig(config: Record): (r: Record)
    ensures r.Keys == config.Keys + {"credentials"}
    ensures forall k | k in config :: r[k] == config[k]
    ensures "credentials" !in config && HasUserPass(Get(config, "auth")) ==>
      r["credentials"] == CredentialsFrom(Get(config, "auth"))
    ensures "credentials" !in config && !HasUserPass(Get(config, "auth")) ==> r["credentials"] == Undef
  {
    var auth := Get(config, "auth");
    var derived := if HasUserPass(auth) then CredentialsFrom(auth) else Undef;
    map["credentials" := Or(Get(config, "credentials"), derived)] + config
  }

  /**
    `toNodemailerConfig`: `auth` defaults to the one derived from truthy
    `credentials`, then every input key is copied over it.
   */
  function ToNodemailerConfig(config: Record): (r: Record)
    ensures r.Keys == config.Keys + {"auth"}
    ensures forall k | k in config :: r[k] == config[k]
    ensures "auth" !in config && Truthy(Get(config, "credentials")) ==>
      r["auth"] == AuthFrom(Get(config, "credentials"))
    ensures "auth" !in config && !Truthy(Get(config, "credentials")) ==> r["auth"] == Undef
  {
    var credentials := Get(config, "credentials");
    var derived := if Truthy(credentials) then AuthFrom(credentials) else Undef;
    map["auth" := Or(Get(config, "auth"), derived)] + config
  }

  /** nodemailer auth translated to credentials and back is the auth it started from. */
  lemma AuthRoundTrip(user: Value, pass: Value, rest: Record)
    requires "auth" !in rest && "credentials" !in rest
    ensures
      var auth := Obj(map["user" := user, "pass" := pass]);
      var worker := ToWorkerMailerConfig(rest["auth" := auth]);
      ToNodemailerConfig(worker - {"auth"})["auth"] == auth
  {
  }

  /** worker-mailer credentials translated to auth and back are the credentials they started from. */
  lemma CredentialsRoundTrip(username: Value, password: Value, rest: Record)
    requires "auth" !in rest && "credentials" !in rest
    ensures
      var credentials := Obj(map["username" := username, "password" := password]);
      var node := ToNodemailerConfig(rest["credentials" := credentials]);
      ToWorkerMailerConfig(node - {"credentials"})["credentials"] == credentials
  {
  }

  /** The three credential keys SES accepts flat or nested. */
  predicate IsCredentialKey(k: string) {
    k == "accessKeyId" || k == "secretAccessKey" || k == "sessionToken"
  }

  /** The SES module option `clientConfig`, or `{}` when it is falsy. */
  function ClientConfigOf(sesConfig: Value): Value {
    Or(Prop(sesConfig, "clientConfig"), Obj(map[]))
  }

  /** A client config with flat keys and no credentials object gets a nested one. */
  predicate NeedsNestedCredentials(cc: Value) {
    Truthy(Prop(cc, "accessKeyId")) && Truthy(Prop(cc, "secretAccessKey")) && !Truthy(Prop(cc, "credentials"))
  }

  /** The nested credentials object built from the flat keys. */
  function NestedCredentials(cc: Value): Value {
    Obj(map[
      "accessKeyId" := Prop(cc, "accessKeyId"),
      "secretAccessKey" := Prop(cc, "secretAccessKey"),
      "sessionToken" := Prop(cc, "sessionToken")])
  }

  /**
    `getSesClientConfigNode`: the client config (or `{}`), defu-merged over
    `{credentials: nested}` when it has flat keys but no credentials object.
    The merge drops the config's `null`/`undefined` keys and keeps a
    credentials value that is falsy but defined.
   */
  function GetSesClientConfigNode(sesConfig: Value): (r: Value)
    ensures !Truthy(Prop(sesConfig, "clientConfig")) ==> r == Obj(map[])
    ensures !NeedsNestedCredentials(ClientConfigOf(sesConfig)) ==> r == ClientConfigOf(sesConfig)
    ensures NeedsNestedCredentials(ClientConfigOf(sesConfig)) ==>
      var cc := ClientConfigOf(sesConfig).fields;
      && r.Obj?
      && (forall k :: k in r.fields <==> k == "credentials" || Defu.Takes(cc, k))
      && (forall k | Defu.Takes(cc, k) && k != "credentials" :: r.fields[k] == cc[k])
      && r.fields["credentials"] ==
           (if Nullish(Get(cc, "credentials")) then NestedCredentials(Obj(cc)) else cc["credentials"])
  {
    var cc := ClientConfigOf(sesConfig);
    if NeedsNestedCredentials(cc) then
      var defaults := map["credentials" := NestedCredentials(cc)];
      OwnCredentialsKept(cc.fields, defaults);
      Defu.Merge(cc, Obj(defaults))
    else cc
  }

  /** A falsy but defined `credentials` value of the client config survives the merge as it is. */
  lemma OwnCredentialsKept(cc: Record, defaults: Record)
    requires !Truthy(Get(cc, "credentials"))
    ensures Defu.Takes(cc, "credentials") ==> Defu.MergeFields(cc, defaults)["credentials"] == cc["credentials"]
  {
    if Defu.Takes(cc, "credentials") {
      Defu.BaseLeafWins(cc, defaults, "credentials");
    }
  }

  /** The nested credentials repeat the flat keys. */
  lemma NestedCredentialsRepeatFlat(cc: Value, k: string)
    requires IsCredentialKey(k)
    ensures Prop(NestedCredentials(cc), k) == Prop(cc, k)
  {
  }

  /**
    `getSesClientConfigEdge`: each credential key taken flat, else from the
    nested credentials object, then `region`, `service: 'ses'`, and finally
    every key of the client config spread over them.
   */
  function GetSesClientConfigEdge(sesConfig: Value): (r: Record)
    requires Spreadable(Prop(sesConfig, "clientConfig"))
    ensures
      var cc := Spread(Prop(sesConfig, "clientConfig"));
      && r.Keys == cc.Keys + {"accessKeyId", "secretAccessKey", "sessionToken", "region", "service"}
      && (forall k | k in cc :: r[k] == cc[k])
      && (forall k | IsCredentialKey(k) && k !in cc :: r[k] == Prop(Get(cc, "credentials"), k))
      && ("region" !in cc ==> r["region"] == Undef)
      && ("service" !in cc ==> r["service"] == Str("ses"))
  {
    var cc := Prop(sesConfig, "clientConfig");
    var nested := Prop(cc, "credentials");
    map[
      "accessKeyId" := Or(Prop(cc, "accessKeyId"), Prop(nested, "accessKeyId")),
      "secretAccessKey" := Or(Prop(cc, "secretAccessKey"), Prop(nested, "secretAccessKey")),
      "sessionToken" := Or(Prop(cc, "sessionToken"), Prop(nested, "sessionToken")),
      "region" := Prop(cc, "region"),
      "service" := Str("ses")
    ] + Spread(cc)
  }

  /**
    For a client config with flat keys and no credentials object, the node
    client's nested credentials and the edge client's flat ones agree.
   */
  lemma NodeAndEdgeAgreeOnCredentials(sesConfig: Value, k: string)
    requires Prop(sesConfig, "clientConfig").Obj?
    requires "credentials" !in Prop(sesConfig, "clientConfig").fields
    requires NeedsNestedCredentials(Prop(sesConfig, "clientConfig"))
    requires IsCredentialKey(k)
    ensures Prop(Prop(GetSesClientConfigNode(sesConfig), "credentials"), k) == GetSesClientConfigEdge(sesConfig)[k]
  {
    var cc := Prop(sesConfig, "clientConfig");
    assert ClientConfigOf(sesConfig) == cc;
    assert Prop(GetSesClientConfigNode(sesConfig), "credentials") == NestedCredentials(cc);
    NestedCredentialsRepeatFlat(cc, k);
    assert GetSesClientConfigEdge(sesConfig)[k] == Prop(cc, k);
  }
}
