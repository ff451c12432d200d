/**
  String primitives the address normaliser relies on: JavaScript's
  `String.prototype.trim` and the `"Name <email>"` pattern
  `^([^<]*)<([^>]+)>$`.
 */
module Text {
  import opened Wrappers

  /**
    The characters `trim` removes: the ECMAScript WhiteSpace set (tab,
    vertical tab, form feed, the byte-order mark and every space separator)
    and the four line terminators.
   */
  predicate IsSpace(c: char) {
    var n := c as int;
    n == 0x09 || n == 0x0A || n == 0x0B || n == 0x0C || n == 0x0D || n == 0x20
    || n == 0xA0 || n == 0x1680 || (0x2000 <= n <= 0x200A)
    || n == 0x2028 || n == 0x2029 || n == 0x202F || n == 0x205F
    || n == 0x3000 || n == 0xFEFF
  }

  /** `s` after removing its leading white space: a suffix of `s`. */
  function TrimStart(s: string): (r: string)
    ensures |r| <= |s| && r == s[|s| - |r|..]
    ensures forall i :: 0 <= i < |s| - |r| ==> IsSpace(s[i])
    ensures |r| > 0 ==> !IsSpace(r[0])
  {
    if |s| > 0 && IsSpace(s[0]) then TrimStart(s[1..]) else s
  }

  /** `s` after removing its trailing white space: a prefix of `s`. */
  function TrimEnd(s: string): (r: string)
    ensures |r| <= |s| && r == s[..|r|]
    ensures forall i :: |r| <= i < |s| ==> IsSpace(s[i])
    ensures |r| > 0 ==> !IsSpace(r[|r| - 1])
  {
    if |s| > 0 && IsSpace(s[|s| - 1]) then TrimEnd(s[..|s| - 1]) else s
  }

  /** `s.trim()`. */
  function Trim(s: string): string {
    TrimEnd(TrimStart(s))
  }

  /** A string `trim` leaves alone: no white space at either end. */
  predicate Trimmed(s: string) {
    |s| == 0 || (!IsSpace(s[0]) && !IsSpace(s[|s| - 1]))
  }

  /** How many leading characters `trim` drops. */
  function TrimOffset(s: string): (k: nat)
    ensures k <= |s|
  {
    |s| - |TrimStart(s)|
  }

  /** `trim` yields a trimmed infix of its input and removes only white space. */
  lemma TrimSpec(s: string)
    ensures Trimmed(Trim(s))
    ensures TrimOffset(s) + |Trim(s)| <= |s|
    ensures Trim(s) == s[TrimOffset(s)..TrimOffset(s) + |Trim(s)|]
    ensures forall i :: 0 <= i < TrimOffset(s) ==> IsSpace(s[i])
    ensures forall i :: TrimOffset(s) + |Trim(s)| <= i < |s| ==> IsSpace(s[i])
  {
    var a := TrimStart(s);
    var t := TrimEnd(a);
    var k := |s| - |a|;
    assert t == a[..|t|];
    assert a == s[k..];
    assert t == s[k..k + |t|];
    if |t| > 0 {
      assert t[0] == a[0];
    }
    SuffixSpaces(s, a, |t|);
  }

  /** Trailing white space of a suffix `a` of `s` is trailing white space of `s`. */
  lemma SuffixSpaces(s: string, a: string, n: nat)
    requires |a| <= |s| && a == s[|s| - |a|..] && n <= |a|
    requires forall i :: n <= i < |a| ==> IsSpace(a[i])
    ensures forall i :: |s| - |a| + n <= i < |s| ==> IsSpace(s[i])
  {
    forall i | |s| - |a| + n <= i < |s|
      ensures IsSpace(s[i])
    {
      assert s[i] == a[i - (|s| - |a|)];
    }
  }

  /** `trim` is the identity exactly on trimmed strings. */
  lemma TrimFixedPoint(s: string)
    ensures Trim(s) == s <==> Trimmed(s)
  {
    TrimSpec(s);
    if Trimmed(s) {
      assert TrimStart(s) == s;
      assert TrimEnd(s) == s;
    }
  }

  /** Index of the first occurrence of `c` in `s`. */
  function IndexOf(s: string, c: char): (r: Option<nat>)
    ensures r.Some? ==> r.value < |s| && s[r.value] == c && c !in s[..r.value]
    ensures r.None? ==> c !in s
  {
    if |s| == 0 then None
    else if s[0] == c then Some(0)
    else match IndexOf(s[1..], c)
      case None => None
      case Some(i) => Some(i + 1)
  }

  /**
    The reference reading of `^([^<]*)<([^>]+)>$`: `s` is `g1 + "<" + g2 + ">"`
    where `g1` holds no `<` and `g2` is non-empty and holds no `>`.
   */
  predicate MatchesBracketed(s: string, g1: string, g2: string) {
    && s == g1 + "<" + g2 + ">"
    && '<' !in g1
    && |g2| > 0
    && '>' !in g2
  }

  /**
    The two capture groups of `^([^<]*)<([^>]+)>$` on `s`, or `None` when the
    pattern does not match. The first group ends at the first `<`.
   */
  function MatchBracketed(s: string): Option<(string, string)> {
    match IndexOf(s, '<')
    case None => None
    case Some(i) =>
      if i + 2 < |s| && s[|s| - 1] == '>' && '>' !in s[i + 1..|s| - 1]
      then Some((s[..i], s[i + 1..|s| - 1]))
      else None
  }

  /** The matcher agrees with the reference reading of the pattern, in both directions. */
  lemma MatchBracketedCorrect(s: string, g1: string, g2: string)
    ensures MatchBracketed(s) == Some((g1, g2)) <==> MatchesBracketed(s, g1, g2)
  {
    if MatchesBracketed(s, g1, g2) {
      assert s[|g1|] == '<';
      assert s[..|g1|] == g1;
      assert forall j :: 0 <= j < |g1| ==> s[j] == g1[j];
      var i := IndexOf(s, '<');
      assert i.Some? && i.value == |g1|;
      assert s[|g1| + 1..|s| - 1] == g2;
    }
    if MatchBracketed(s) == Some((g1, g2)) {
      var i := IndexOf(s, '<').value;
      assert s == s[..i] + "<" + s[i + 1..|s| - 1] + ">";
    }
  }

  /** The pattern never matches a string without `<`, such as a bare address. */
  lemma NoBracketNoMatch(s: string)
    requires '<' !in s
    ensures MatchBracketed(s).None?
  {
  }
}
