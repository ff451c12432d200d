/**
  The `defu` deep-defaults merge used by the mailer (`defu(base, defaults)`).

  Starting from a copy of `defaults`, every key of `base` whose value is
  neither `undefined` nor `null` is laid over it: two lists are concatenated
  (base items first), two plain objects are merged recursively, and any other
  base value replaces the default. The keys `__proto__` and `constructor` of
  `base` are ignored. A non-object argument counts as `{}`.
 */
module Defu {
  import opened Values

  /** Whether the merge takes key `k` from `base`. */
  predicate Takes(base: Record, k: string) {
    k in base && !Nullish(base[k]) && k != "__proto__" && k != "constructor"
  }

  /** The value stored for a key that `base` supplies, given the default `d` for it. */
  function MergeValue(v: Value, d: Value): (r: Value)
    decreases v, 1
  {
    if v.Arr? && d.Arr? then Arr(v.items + d.items)
    else if v.Obj? && d.Obj? then Obj(MergeFields(v.fields, d.fields))
    else v
  }

  /** `defu(base, defaults)` on two plain objects. */
  function MergeFields(base: Record, defaults: Record): (r: Record)
    decreases Obj(base), 0
    ensures forall k :: k in r <==> k in defaults || Takes(base, k)
    ensures forall k | k in defaults && !Takes(base, k) :: r[k] == defaults[k]
    ensures forall k | Takes(base, k) && k !in defaults :: r[k] == base[k]
  {
    map k | k in defaults.Keys + base.Keys && (k in defaults || Takes(base, k))
      :: if Takes(base, k) then MergeValue(base[k], Get(defaults, k)) else defaults[k]
  }

  /** The fields a value contributes to the merge: its own if it is a plain object, none otherwise. */
  function PlainFields(v: Value): Record {
    if v.Obj? then v.fields else map[]
  }

  /** `defu(base, defaults)`: always a plain object. */
  function Merge(base: Value, defaults: Value): (r: Value)
    ensures r.Obj?
  {
    Obj(MergeFields(PlainFields(base), PlainFields(defaults)))
  }

  /** A base value that is neither a list nor an object wins outright over any default. */
  lemma BaseLeafWins(base: Record, defaults: Record, k: string)
    requires Takes(base, k) && !base[k].Arr? && !base[k].Obj?
    ensures k in MergeFields(base, defaults) && MergeFields(base, defaults)[k] == base[k]
  {
  }

  /** A base value of a different kind from the default also wins outright. */
  lemma BaseWinsOnKindClash(base: Record, defaults: Record, k: string)
    requires Takes(base, k) && k in defaults
    requires !(base[k].Arr? && defaults[k].Arr?) && !(base[k].Obj? && defaults[k].Obj?)
    ensures MergeFields(base, defaults)[k] == base[k]
  {
  }

  /** Two lists under one key are concatenated, the base's items first. */
  lemma ListsConcatenate(base: Record, defaults: Record, k: string)
    requires Takes(base, k) && k in defaults && base[k].Arr? && defaults[k].Arr?
    ensures MergeFields(base, defaults)[k] == Arr(base[k].items + defaults[k].items)
  {
  }

  /** Two plain objects under one non-reserved key are merged recursively, the base's fields over the default's. */
  lemma ObjectsMergeRecursively(base: Record, defaults: Record, k: string)
    requires k in base && k in defaults && base[k].Obj? && defaults[k].Obj?
    requires k != "__proto__" && k != "constructor"
    ensures MergeFields(base, defaults)[k] == Obj(MergeFields(base[k].fields, defaults[k].fields))
  {
    assert Takes(base, k);
  }

  /** The reserved keys `__proto__` and `constructor` of the base are ignored: the default, if any, stays. */
  lemma ReservedKeysIgnored(base: Record, defaults: Record, k: string)
    requires k == "__proto__" || k == "constructor"
    ensures k in defaults ==> MergeFields(base, defaults)[k] == defaults[k]
    ensures k !in defaults ==> k !in MergeFields(base, defaults)
  {
  }

  /** The part of a record the merge takes from it: its non-nullish, non-reserved keys. */
  function Defined(m: Record): (r: Record)
    ensures forall k :: k in r <==> Takes(m, k)
  {
    map k | k in m && Takes(m, k) :: m[k]
  }

  /** Merging over no defaults keeps exactly the defined part of the base. */
  lemma MergeOverNothing(base: Record)
    ensures MergeFields(base, map[]) == Defined(base)
  {
  }

  /** Merging an empty base returns the defaults unchanged. */
  lemma MergeOfNothing(defaults: Record)
    ensures MergeFields(map[], defaults) == defaults
  {
  }

  /** A value with no lists, no `null`/`undefined` leaves and no reserved keys anywhere inside it. */
  predicate Simple(v: Value)
    decreases v
  {
    match v
    case Undef => false
    case Null => false
    case Arr(_) => false
    case Obj(f) => forall k | k in f :: Takes(f, k) && Simple(f[k])
    case _ => true
  }

  /** Merging a simple record over itself changes nothing. */
  lemma {:induction false} MergeSelf(m: Record)
    requires Simple(Obj(m))
    ensures MergeFields(m, m) == m
    decreases Obj(m)
  {
    forall k | k in m
      ensures MergeFields(m, m)[k] == m[k]
    {
      var v := m[k];
      if v.Obj? {
        MergeSelf(v.fields);
      }
    }
  }
}
