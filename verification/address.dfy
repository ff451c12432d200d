/**
  The address normaliser. An address arrives as a string (bare, or
  `"Name <email>"`), as a worker-mailer user `{name?, email}` or as a
  nodemailer address `{name, address}`; these functions produce the user
  records, formatted strings and string lists the three mail libraries want.
 */
module Address {
  import opened Values
  import opened Text

  /** The shapes the converters accept: a string or an object (`string | Address | User`). */
  predicate IsAddress(v: Value) {
    v.Str? || v.Obj?
  }

  /** An address field: absent or falsy, one address, or a list of addresses. */
  predicate IsAddressField(v: Value) {
    || !Truthy(v)
    || IsAddress(v)
    || (v.Arr? && forall i :: 0 <= i < |v.items| ==> IsAddress(v.items[i]))
  }

  /** A worker-mailer user record. */
  function UserOf(name: Value, email: Value): Value {
    Obj(map["name" := name, "email" := email])
  }

  /** A user record with only an email. */
  function EmailOnly(email: Value): Value {
    Obj(map["email" := email])
  }

  /**
    `toUser`: a string is parsed with `^([^<]*)<([^>]+)>$` into a trimmed
    name and email, or else taken whole as the email; an object that has an
    `email` key is already a user; any other object is a nodemailer address
    whose `address` becomes the email.
   */
  function ToUser(a: Value): (r: Value)
    requires IsAddress(a)
    ensures r.Obj? && "email" in r.fields
    ensures a.Obj? && "email" in a.fields ==> r == a
    ensures a.Obj? && "email" !in a.fields ==> r == UserOf(Prop(a, "name"), Prop(a, "address"))
  {
    if a.Str? then
      match MatchBracketed(a.s)
      case Some((g1, g2)) => UserOf(Str(Trim(g1)), Str(Trim(g2)))
      case None => EmailOnly(a)
    else if "email" in a.fields then a
    else UserOf(Get(a.fields, "name"), Get(a.fields, "address"))
  }

  /**
    `toAddressString`: strings pass through; a record becomes
    `"name <email>"` when its name is truthy and the bare email otherwise,
    the email read from `email` with `address` as fallback.
   */
  function ToAddressString(a: Value): (r: Value)
    requires IsAddress(a)
    ensures a.Str? ==> r == a
    ensures a.Obj? && Truthy(Prop(a, "name")) ==>
      r == Str(ToText(Prop(a, "name")) + " <" + ToText(Or(Prop(a, "email"), Prop(a, "address"))) + ">")
    ensures a.Obj? && !Truthy(Prop(a, "name")) ==> r == Or(Prop(a, "email"), Prop(a, "address"))
  {
    if a.Str? then a
    else
      var email := Or(Get(a.fields, "email"), Get(a.fields, "address"));
      var name := Get(a.fields, "name");
      if Truthy(name) then Str(ToText(name) + " <" + ToText(email) + ">") else email
  }

  /** `toUser` applied to every element, in order. */
  function MapToUser(xs: seq<Value>): (r: seq<Value>)
    requires forall i :: 0 <= i < |xs| ==> IsAddress(xs[i])
    ensures |r| == |xs|
    ensures forall i :: 0 <= i < |xs| ==> r[i] == ToUser(xs[i])
  {
    seq(|xs|, i requires 0 <= i < |xs| && IsAddress(xs[i]) => ToUser(xs[i]))
  }

  /** `toAddressString` applied to every element, in order. */
  function MapToAddressString(xs: seq<Value>): (r: seq<Value>)
    requires forall i :: 0 <= i < |xs| ==> IsAddress(xs[i])
    ensures |r| == |xs|
    ensures forall i :: 0 <= i < |xs| ==> r[i] == ToAddressString(xs[i])
  {
    seq(|xs|, i requires 0 <= i < |xs| && IsAddress(xs[i]) => ToAddressString(xs[i]))
  }

  /** `toUserOrArray`: a list maps element-wise; a single address stays single. */
  function ToUserOrArray(v: Value): (r: Value)
    requires IsAddressField(v)
    ensures !Truthy(v) ==> r == Undef
    ensures v.Arr? ==> r.Arr? && |r.items| == |v.items|
    ensures v.Arr? ==> forall i :: 0 <= i < |v.items| ==> r.items[i] == ToUser(v.items[i])
    ensures Truthy(v) && !v.Arr? ==> r.Obj? && r == ToUser(v)
  {
    if !Truthy(v) then Undef
    else if v.Arr? then Arr(MapToUser(v.items))
    else ToUser(v)
  }

  /** `toAddressOrArray`: a list maps element-wise; a single address stays single. */
  function ToAddressOrArray(v: Value): (r: Value)
    requires IsAddressField(v)
    ensures !Truthy(v) ==> r == Undef
    ensures v.Arr? ==> r.Arr? && |r.items| == |v.items|
    ensures v.Arr? ==> forall i :: 0 <= i < |v.items| ==> r.items[i] == ToAddressString(v.items[i])
    ensures Truthy(v) && !v.Arr? ==> r == ToAddressString(v)
  {
    if !Truthy(v) then Undef
    else if v.Arr? then Arr(MapToAddressString(v.items))
    else ToAddressString(v)
  }

  /** `toAddressStringArray`: always a list, a single address lifted to a list of one. */
  function ToAddressStringArray(v: Value): (r: Value)
    requires IsAddressField(v)
    ensures !Truthy(v) ==> r == Undef
    ensures Truthy(v) ==> r.Arr?
    ensures v.Arr? ==> |r.items| == |v.items|
    ensures v.Arr? ==> forall i :: 0 <= i < |v.items| ==> r.items[i] == ToAddressString(v.items[i])
    ensures Truthy(v) && !v.Arr? ==> r.items == [ToAddressString(v)]
  {
    if !Truthy(v) then Undef
    else
      var xs := if v.Arr? then v.items else [v];
      Arr(MapToAddressString(xs))
  }

  /** `toSingleUser`: the first element of a list (none for an empty list), or the one address. */
  function ToSingleUser(v: Value): (r: Value)
    requires IsAddressField(v)
    ensures !Truthy(v) ==> r == Undef
    ensures v.Arr? && |v.items| == 0 ==> r == Undef
    ensures v.Arr? && |v.items| > 0 ==> r == ToUser(v.items[0])
    ensures Truthy(v) && !v.Arr? ==> r == ToUser(v)
  {
    if !Truthy(v) then Undef
    else if v.Arr? then (if |v.items| > 0 then ToUser(v.items[0]) else Undef)
    else ToUser(v)
  }

  /** Lifting a one-or-many result into a list, as `Array.isArray(x) ? x : [x]` does. */
  function AsList(v: Value): Value {
    if v.Undef? || v.Arr? then v else Arr([v])
  }

  /** The first of a one-or-many result. */
  function FirstOf(v: Value): Value {
    if v.Arr? then (if |v.items| > 0 then v.items[0] else Undef) else v
  }

  /** The string-list form is the one-or-many string form lifted into a list. */
  lemma StringArrayLiftsOneOrMany(v: Value)
    requires IsAddressField(v)
    requires Truthy(v) && !v.Arr? ==> ToAddressString(v).Str?
    ensures ToAddressStringArray(v) == AsList(ToAddressOrArray(v))
  {
    if Truthy(v) && v.Arr? {
      assert ToAddressStringArray(v).items == ToAddressOrArray(v).items;
    }
  }

  /** The single-user form is the first of the one-or-many user form. */
  lemma SingleUserIsFirst(v: Value)
    requires IsAddressField(v)
    ensures ToSingleUser(v) == FirstOf(ToUserOrArray(v))
  {
  }

  /** A string the pattern `^([^<]*)<([^>]+)>$` does not match. */
  ghost predicate Unbracketed(s: string) {
    forall g1, g2 :: !MatchesBracketed(s, g1, g2)
  }

  /** A matching string becomes a user with the trimmed groups as name and email. */
  lemma {:induction false} BracketedToUser(s: string, g1: string, g2: string)
    requires MatchesBracketed(s, g1, g2)
    ensures ToUser(Str(s)) == UserOf(Str(Trim(g1)), Str(Trim(g2)))
  {
    MatchBracketedCorrect(s, g1, g2);
  }

  /** Any other string becomes a user whose email is the whole string. */
  lemma {:induction false} UnbracketedToUser(s: string)
    requires Unbracketed(s)
    ensures ToUser(Str(s)) == EmailOnly(Str(s))
  {
    if MatchBracketed(s).Some? {
      var (g1, g2) := MatchBracketed(s).value;
      MatchBracketedCorrect(s, g1, g2);
      assert false;
    }
  }

  /** A non-empty bare address survives `toUser` then `toAddressString` unchanged. */
  lemma {:induction false} BareRoundTrip(s: string)
    requires s != "" && Unbracketed(s)
    ensures ToAddressString(ToUser(Str(s))) == Str(s)
  {
    UnbracketedToUser(s);
  }

  /** Appending one space to a trimmed non-empty string and trimming gives it back. */
  lemma TrimPaddedName(n: string)
    requires n != "" && Trimmed(n)
    ensures Trim(n + " ") == n
  {
    var p := n + " ";
    assert p[0] == n[0];
    assert TrimStart(p) == p;
    assert p[|n| - 1] == n[|n| - 1];
    assert p[|p| - 1] == ' ';
    assert |TrimEnd(p)| == |n|;
    assert TrimEnd(p) == p[..|n|] == n;
  }

  /** A canonical name and email format as `"name <email>"`. */
  lemma FormatsCanonicalUser(n: string, e: string)
    requires n != "" && e != ""
    ensures ToAddressString(UserOf(Str(n), Str(e))) == Str(n + " <" + e + ">")
  {
    var u := UserOf(Str(n), Str(e));
    assert Get(u.fields, "name") == Str(n) && Truthy(Str(n));
    assert Get(u.fields, "email") == Str(e) && Truthy(Str(e));
    assert ToText(Str(n)) == n && ToText(Str(e)) == e;
  }

  /** A canonical `"name <email>"` string parses into the user with that name and email. */
  lemma {:induction false} ParsesCanonicalString(n: string, e: string)
    requires n != "" && Trimmed(n) && '<' !in n
    requires e != "" && Trimmed(e) && '>' !in e
    ensures ToUser(Str(n + " <" + e + ">")) == UserOf(Str(n), Str(e))
  {
    var s := n + " <" + e + ">";
    assert s == (n + " ") + "<" + e + ">";
    assert '<' !in n + " ";
    BracketedToUser(s, n + " ", e);
    TrimPaddedName(n);
    TrimFixedPoint(e);
  }

  /** The canonical `"name <email>"` form survives `toUser` then `toAddressString` unchanged. */
  lemma {:induction false} FormattedRoundTrip(n: string, e: string)
    requires n != "" && Trimmed(n) && '<' !in n
    requires e != "" && Trimmed(e) && '>' !in e
    ensures ToAddressString(ToUser(Str(n + " <" + e + ">"))) == Str(n + " <" + e + ">")
  {
    ParsesCanonicalString(n, e);
    FormatsCanonicalUser(n, e);
  }

  /** A user with a canonical name and email survives `toAddressString` then `toUser` unchanged. */
  lemma {:induction false} UserRoundTrip(n: string, e: string)
    requires n != "" && Trimmed(n) && '<' !in n
    requires e != "" && Trimmed(e) && '>' !in e
    ensures ToUser(ToAddressString(UserOf(Str(n), Str(e)))) == UserOf(Str(n), Str(e))
  {
    FormatsCanonicalUser(n, e);
    ParsesCanonicalString(n, e);
  }

  /**
    Without a space before `<` the formatted form does not survive: the
    round trip inserts one, so it is exact only for the canonical spacing.
   */
  lemma {:induction false} UnspacedNameIsRespaced(n: string, e: string)
    requires n != "" && Trimmed(n) && '<' !in n
    requires e != "" && Trimmed(e) && '>' !in e
    ensures ToAddressString(ToUser(Str(n + "<" + e + ">"))) == Str(n + " <" + e + ">")
    ensures ToAddressString(ToUser(Str(n + "<" + e + ">"))) != Str(n + "<" + e + ">")
  {
    var s := n + "<" + e + ">";
    assert MatchesBracketed(s, n, e);
    BracketedToUser(s, n, e);
    TrimFixedPoint(n);
    TrimFixedPoint(e);
    FormatsCanonicalUser(n, e);
    assert (n + " <" + e + ">")[|n|] != s[|n|];
  }

  /** A user whose name is empty formats as its bare email. */
  lemma FormatsNamelessUser(e: string)
    requires e != ""
    ensures ToAddressString(UserOf(Str(""), Str(e))) == Str(e)
  {
    var u := UserOf(Str(""), Str(e));
    assert Get(u.fields, "name") == Str("") && !Truthy(Str(""));
    assert Get(u.fields, "email") == Str(e) && Truthy(Str(e));
  }

  /** With an empty name the brackets are dropped: `"<e>"` comes back as the bare `e`. */
  lemma {:induction false} EmptyNameDropsBrackets(e: string)
    requires e != "" && Trimmed(e) && '>' !in e
    ensures ToUser(Str("<" + e + ">")) == UserOf(Str(""), Str(e))
    ensures ToAddressString(ToUser(Str("<" + e + ">"))) == Str(e)
  {
    assert "<" + e + ">" == "" + "<" + e + ">";
    BracketedToUser("<" + e + ">", "", e);
    TrimFixedPoint(e);
    TrimFixedPoint("");
    FormatsNamelessUser(e);
  }

  /** A record with a non-empty string name formats as `"name <email>"`, the email being `email || address`. */
  lemma NamedRecordFormats(a: Value, n: string, e: string)
    requires a.Obj? && Prop(a, "name") == Str(n) && n != ""
    requires Or(Prop(a, "email"), Prop(a, "address")) == Str(e)
    ensures ToAddressString(a) == Str(n + " <" + e + ">")
  {
    assert Truthy(Str(n));
    assert ToText(Str(n)) == n && ToText(Str(e)) == e;
  }

  /**
    A record whose `email` is falsy (absent, or `""`) formats exactly as if
    its `email` were its `address`: `{name: "N", email: "", address: "x"}`
    gives `"N <x>"`.
   */
  lemma FalsyEmailUsesAddress(a: Value)
    requires a.Obj? && !Truthy(Prop(a, "email"))
    ensures ToAddressString(a) == ToAddressString(Obj(a.fields["email" := Prop(a, "address")]))
  {
    var b := Obj(a.fields["email" := Prop(a, "address")]);
    assert Prop(b, "name") == Prop(a, "name");
    assert Prop(b, "address") == Prop(a, "address");
    assert Or(Prop(b, "email"), Prop(b, "address")) == Or(Prop(a, "email"), Prop(a, "address"));
  }

  /** The example record `{name: "N", email: "", address: "x"}` formats as `"N <x>"`. */
  lemma EmptyEmailExample()
    ensures ToAddressString(Obj(map["name" := Str("N"), "email" := Str(""), "address" := Str("x")])) == Str("N <x>")
  {
    var a := Obj(map["name" := Str("N"), "email" := Str(""), "address" := Str("x")]);
    assert Prop(a, "email") == Str("") && !Truthy(Str(""));
    NamedRecordFormats(a, "N", "x");
  }

  /**
    For an object address, formatting it directly and formatting its user
    form agree, provided it names its mailbox under `email` or a truthy `address`.
   */
  lemma ObjectFormatsLikeItsUser(a: Value)
    requires a.Obj? && ("email" in a.fields || Truthy(Prop(a, "address")))
    ensures ToAddressString(ToUser(a)) == ToAddressString(a)
  {
  }

  /**
    An address whose user form formats exactly as the address itself: an
    object naming its mailbox under `email` or a truthy `address`, or a
    non-empty bare string without `<`.
   */
  predicate KeepsFormat(a: Value) {
    || (a.Obj? && ("email" in a.fields || Truthy(Prop(a, "address"))))
    || (a.Str? && a.s != "" && '<' !in a.s)
  }

  /** An address field all of whose addresses keep their format. */
  predicate FieldKeepsFormat(v: Value) {
    && (v.Arr? ==> forall i :: 0 <= i < |v.items| ==> KeepsFormat(v.items[i]))
    && (Truthy(v) && !v.Arr? ==> KeepsFormat(v))
  }

  /** Formatting the user form of such an address gives the address's own format. */
  lemma UserFormatsLikeAddress(a: Value)
    requires KeepsFormat(a)
    ensures IsAddress(a) && ToAddressString(ToUser(a)) == ToAddressString(a)
  {
    if a.Str? {
      NoBracketNoMatch(a.s);
      assert ToUser(a) == EmailOnly(a);
    } else {
      ObjectFormatsLikeItsUser(a);
    }
  }

  /**
    For a field of such addresses, formatting the one-or-many user form
    gives the one-or-many string form: the two libraries receive the same
    mailboxes, structured and formatted.
   */
  lemma UsersFormatLikeAddresses(v: Value)
    requires IsAddressField(v) && FieldKeepsFormat(v)
    ensures IsAddressField(ToUserOrArray(v))
    ensures ToAddressOrArray(ToUserOrArray(v)) == ToAddressOrArray(v)
  {
    if Truthy(v) && v.Arr? {
      var u := ToUserOrArray(v);
      forall i | 0 <= i < |v.items|
        ensures IsAddress(u.items[i]) && ToAddressString(u.items[i]) == ToAddressString(v.items[i])
      {
        UserFormatsLikeAddress(v.items[i]);
      }
      assert ToAddressOrArray(u).items == ToAddressOrArray(v).items;
    } else if Truthy(v) {
      UserFormatsLikeAddress(v);
    }
  }
}
