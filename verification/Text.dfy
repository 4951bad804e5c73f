/**
 * The JavaScript string operations the service relies on: `trim`,
 * `startsWith`, `split(sep)[0]`, `indexOf`, `replace` with a string
 * pattern, truthiness of an optional string and the `a || b` default.
 */
module Text {
  import opened Wrappers

  /** The code points `String.prototype.trim` removes: JavaScript's
    * WhiteSpace and LineTerminator characters. */
  predicate IsSpace(c: char) {
    var n := c as int;
    n == 0x09 || n == 0x0A || n == 0x0B || n == 0x0C || n == 0x0D || n == 0x20
    || n == 0xA0 || n == 0x1680 || (0x2000 <= n <= 0x200A) || n == 0x2028
    || n == 0x2029 || n == 0x202F || n == 0x205F || n == 0x3000 || n == 0xFEFF
  }

  predicate AllSpace(s: string) {
    forall i :: 0 <= i < |s| ==> IsSpace(s[i])
  }

  /** `s.startsWith(p)` */
  predicate StartsWith(s: string, p: string) {
    |p| <= |s| && s[..|p|] == p
  }

  /** `s` starts with `p` exactly when it is `p` followed by the rest. */
  lemma StartsWithIsPrefix(s: string, p: string)
    ensures StartsWith(s, p) <==> |p| <= |s| && s == p + s[|p|..]
  {
    if |p| <= |s| {
      assert s == s[..|p|] + s[|p|..];
    }
  }

  /** A string starts with any of its prefixes; used wherever a value is
    * composed as a prefix followed by more text. */
  lemma StartsWithConcat(p: string, t: string)
    ensures StartsWith(p + t, p)
  {
    assert (p + t)[..|p|] == p;
  }

  /** No whitespace at either end. */
  predicate IsTrimmed(s: string) {
    s == [] || (!IsSpace(s[0]) && !IsSpace(s[|s| - 1]))
  }

  /** `s.trim()`: whitespace is removed from both ends. */
  function Trim(s: string): (r: string)
    ensures |r| <= |s|
    ensures IsTrimmed(r)
    decreases |s|
  {
    if |s| > 0 && IsSpace(s[0]) then Trim(s[1..])
    else if |s| > 0 && IsSpace(s[|s| - 1]) then Trim(s[..|s| - 1])
    else s
  }

  lemma SpaceCons(c: char, t: string)
    requires IsSpace(c) && AllSpace(t)
    ensures AllSpace([c] + t) && AllSpace(t + [c])
  {
  }

  /** `s` is `r` with `lead` whitespace characters before it and only
    * whitespace after it. */
  predicate PaddedBy(s: string, r: string, lead: nat) {
    lead + |r| <= |s| && s[lead..lead + |r|] == r
    && AllSpace(s[..lead]) && AllSpace(s[lead + |r|..])
  }

  /** One more whitespace character in front keeps the padding. */
  lemma PadFront(s: string, r: string, lead: nat)
    requires |s| > 0 && IsSpace(s[0]) && PaddedBy(s[1..], r, lead)
    ensures PaddedBy(s, r, lead + 1)
  {
    var t := s[1..];
    assert s[lead + 1..lead + 1 + |r|] == t[lead..lead + |r|];
    assert s[..lead + 1] == [s[0]] + t[..lead];
    SpaceCons(s[0], t[..lead]);
    assert s[lead + 1 + |r|..] == t[lead + |r|..];
  }

  /** One more whitespace character at the back keeps the padding. */
  lemma PadBack(s: string, r: string, lead: nat)
    requires |s| > 0 && IsSpace(s[|s| - 1]) && PaddedBy(s[..|s| - 1], r, lead)
    ensures PaddedBy(s, r, lead)
  {
    var t := s[..|s| - 1];
    assert s[lead..lead + |r|] == t[lead..lead + |r|];
    assert s[..lead] == t[..lead];
    assert s[lead + |r|..] == t[lead + |r|..] + [s[|s| - 1]];
    SpaceCons(s[|s| - 1], t[lead + |r|..]);
  }

  /** Trimming removes only whitespace: `s` is the trimmed text with a run
    * of whitespace before and after it. */
  lemma {:induction false} TrimRemovesOnlySpace(s: string)
    ensures exists lead :: PaddedBy(s, Trim(s), lead)
    decreases |s|
  {
    if |s| > 0 && IsSpace(s[0]) {
      TrimRemovesOnlySpace(s[1..]);
      var lead: nat :| PaddedBy(s[1..], Trim(s[1..]), lead);
      PadFront(s, Trim(s), lead);
    } else if |s| > 0 && IsSpace(s[|s| - 1]) {
      TrimRemovesOnlySpace(s[..|s| - 1]);
      var lead: nat :| PaddedBy(s[..|s| - 1], Trim(s[..|s| - 1]), lead);
      PadBack(s, Trim(s), lead);
    } else {
      assert s[0..0 + |s|] == s && s[..0] == [] && s[0 + |s|..] == [];
      assert PaddedBy(s, Trim(s), 0);
    }
  }

  /** Trimming leaves nothing exactly when the string is all whitespace. */
  lemma TrimEmptyIffAllSpace(s: string)
    ensures Trim(s) == [] <==> AllSpace(s)
  {
    TrimRemovesOnlySpace(s);
    var lead: nat :| PaddedBy(s, Trim(s), lead);
    if Trim(s) == [] {
      assert forall i :: 0 <= i < |s| ==> s[i] == if i < lead then s[..lead][i] else s[lead..][i - lead];
    } else {
      assert s[lead] == Trim(s)[0];
    }
  }

  /** Trimming adds no character: one absent from `s` is absent from
    * its trim. */
  lemma TrimKeepsAbsence(s: string, c: char)
    requires c !in s
    ensures c !in Trim(s)
  {
    TrimRemovesOnlySpace(s);
    var lead: nat :| PaddedBy(s, Trim(s), lead);
    assert forall k :: 0 <= k < |Trim(s)| ==> Trim(s)[k] == s[lead + k];
  }

  /** A string without whitespace at either end is its own trim. */
  lemma TrimUnchanged(s: string)
    requires IsTrimmed(s)
    ensures Trim(s) == s
  {
  }

  /** Trimming twice is trimming once: a trimmed value is stored as is. */
  lemma TrimIdempotent(s: string)
    ensures Trim(Trim(s)) == Trim(s)
  {
    TrimUnchanged(Trim(s));
  }

  /** `s.split(sep)[0]`: the text before the first `sep`, or all of `s`. */
  function FirstField(s: string, sep: char): (r: string)
    ensures StartsWith(s, r)
    ensures sep !in r
    ensures |r| == |s| || s[|r|] == sep
  {
    if s == [] || s[0] == sep then [] else [s[0]] + FirstField(s[1..], sep)
  }

  /** `s.indexOf(pat)`: the first position where `pat` occurs, or -1. */
  function IndexOf(s: string, pat: string): (i: int)
    ensures i == -1 || 0 <= i <= |s| - |pat|
    ensures i >= 0 ==> StartsWith(s[i..], pat)
    ensures forall j :: 0 <= j <= |s| && (i < 0 || j < i) ==> !StartsWith(s[j..], pat)
  {
    if StartsWith(s, pat) then 0
    else if s == [] then -1
    else
      var k := IndexOf(s[1..], pat);
      assert forall j :: 1 <= j <= |s| ==> s[j..] == s[1..][j - 1..];
      if k < 0 then -1 else k + 1
  }

  /** `s.replace(pat, rep)` for a string pattern: only the first
    * occurrence is replaced (a replacement without `$` patterns). */
  function ReplaceFirst(s: string, pat: string, rep: string): (r: string)
    ensures StartsWith(s, pat) ==> r == rep + s[|pat|..]
    ensures (forall j :: 0 <= j <= |s| ==> !StartsWith(s[j..], pat)) ==> r == s
    ensures forall i :: 0 <= i <= |s| - |pat| && StartsWith(s[i..], pat)
                        && (forall j :: 0 <= j < i ==> !StartsWith(s[j..], pat))
                        ==> r == s[..i] + rep + s[i + |pat|..]
  {
    var i := IndexOf(s, pat);
    if i < 0 then s
    else
      assert i > 0 ==> !StartsWith(s[0..], pat);
      s[..i] + rep + s[i + |pat|..]
  }

  /** JavaScript truthiness of a string that may be `undefined`. */
  predicate Truthy(o: Option<string>) {
    o.Some? && o.value != ""
  }

  /** `o || d` for an optional string and a string default. */
  function OrElse(o: Option<string>, d: string): (r: string)
    ensures Truthy(o) ==> r == o.value
    ensures !Truthy(o) ==> r == d
    ensures r == d || (o.Some? && r == o.value)
  {
    if Truthy(o) then o.value else d
  }
}
