/** The few Python string operations the checker relies on: `t in s`,
    `s.replace(t, '')` and `s.lower()` (ASCII letters only). */
module Text {

  predicate StartsWith(s: string, t: string) {
    |t| <= |s| && s[..|t|] == t
  }

  /** Python's `t in s`, scanning from the left. */
  predicate Contains(s: string, t: string)
    decreases |s|
  {
    StartsWith(s, t) || (|s| > 0 && Contains(s[1..], t))
  }

  /** Python's `s.replace(t, '')`: a single left-to-right pass that drops every
      non-overlapping occurrence of `t`. */
  function RemoveAll(s: string, t: string): string
    requires |t| > 0
    decreases |s|
  {
    if |s| < |t| then s
    else if s[..|t|] == t then RemoveAll(s[|t|..], t)
    else [s[0]] + RemoveAll(s[1..], t)
  }

  /** The number of occurrences that `RemoveAll` drops. */
  function Occurrences(s: string, t: string): nat
    requires |t| > 0
    decreases |s|
  {
    if |s| < |t| then 0
    else if s[..|t|] == t then 1 + Occurrences(s[|t|..], t)
    else Occurrences(s[1..], t)
  }

  lemma {:induction false} RemoveAllLength(s: string, t: string)
    requires |t| > 0
    ensures |RemoveAll(s, t)| == |s| - |t| * Occurrences(s, t)
    decreases |s|
  {
    if |s| < |t| {
    } else if s[..|t|] == t {
      RemoveAllLength(s[|t|..], t);
      RemoveAllLengthDrop(s, t);
    } else {
      RemoveAllLength(s[1..], t);
      RemoveAllLengthKeep(s, t);
    }
  }

  /** The step of `RemoveAllLength` where an occurrence starts the string. */
  lemma RemoveAllLengthDrop(s: string, t: string)
    requires 0 < |t| <= |s| && s[..|t|] == t
    requires |RemoveAll(s[|t|..], t)| == |s[|t|..]| - |t| * Occurrences(s[|t|..], t)
    ensures |RemoveAll(s, t)| == |s| - |t| * Occurrences(s, t)
  {
    var k := Occurrences(s[|t|..], t);
    assert RemoveAll(s, t) == RemoveAll(s[|t|..], t);
    assert Occurrences(s, t) == 1 + k;
    Distribute(|t|, k);
  }

  lemma Distribute(a: int, k: int)
    ensures a * (1 + k) == a + a * k
  {
  }

  /** The step of `RemoveAllLength` where the first character is kept. */
  lemma RemoveAllLengthKeep(s: string, t: string)
    requires 0 < |t| <= |s| && s[..|t|] != t
    requires |RemoveAll(s[1..], t)| == |s[1..]| - |t| * Occurrences(s[1..], t)
    ensures |RemoveAll(s, t)| == |s| - |t| * Occurrences(s, t)
  {
    assert RemoveAll(s, t) == [s[0]] + RemoveAll(s[1..], t);
  }

  /** The left-to-right scan of `replace` finds an occurrence exactly when `in` does. */
  lemma {:induction false} ContainsIffOccurs(s: string, t: string)
    requires |t| > 0
    ensures Contains(s, t) <==> Occurrences(s, t) > 0
    decreases |s|
  {
    if |s| < |t| {
      assert !StartsWith(s, t);
      if |s| > 0 {
        ContainsIffOccurs(s[1..], t);
      }
    } else if s[..|t|] == t {
      assert StartsWith(s, t);
    } else {
      ContainsIffOccurs(s[1..], t);
    }
  }

  function LowerChar(c: char): char {
    if 'A' <= c <= 'Z' then (c as int + 32) as char else c
  }

  /** `s.lower()`, restricted to the ASCII letters. */
  function Lower(s: string): (r: string)
    ensures |r| == |s|
    ensures forall i :: 0 <= i < |s| ==> r[i] == LowerChar(s[i])
  {
    if s == [] then [] else [LowerChar(s[0])] + Lower(s[1..])
  }

  lemma {:induction false} LowerIdempotent(s: string)
    ensures Lower(Lower(s)) == Lower(s)
  {
    assert forall i :: 0 <= i < |s| ==> LowerChar(LowerChar(s[i])) == LowerChar(s[i]);
  }
}
