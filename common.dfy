/** Sequence and string helpers shared by the TasteMatch model.
    Most sequence functions recurse on the LAST element, so that a loop which
    appends one element at a time matches the definition step by step. */
module Common {

  datatype Option<+T> = None | Some(value: T)

  /** Outcome of an operation that may throw: the thrown message, or the value. */
  datatype Result<+T> = Ok(value: T) | Err(message: string)

  function Min(a: int, b: int): int { if a <= b then a else b }

  function Max(a: int, b: int): int { if a >= b then a else b }

  /** Number of occurrences of `x` in `s`. */
  function Count<T(==)>(s: seq<T>, x: T): (n: nat)
    ensures n <= |s|
  {
    if s == [] then 0 else Count(s[..|s| - 1], x) + (if s[|s| - 1] == x then 1 else 0)
  }

  lemma {:induction false} CountPositive<T>(s: seq<T>, x: T)
    ensures Count(s, x) > 0 <==> x in s
  {
    if s != [] {
      CountPositive(s[..|s| - 1], x);
      assert s == s[..|s| - 1] + [s[|s| - 1]];
    }
  }

  lemma CountAppend<T>(s: seq<T>, x: T, y: T)
    ensures Count(s + [x], y) == Count(s, y) + (if x == y then 1 else 0)
  {
    assert (s + [x])[..|s|] == s;
  }

  ghost predicate NoDuplicates<T>(s: seq<T>)
  {
    forall i, j :: 0 <= i < j < |s| ==> s[i] != s[j]
  }

  /** The elements of `d` appear in the order in which they first occur in `s`. */
  ghost predicate InFirstSeenOrder<T>(d: seq<T>, s: seq<T>)
  {
    forall i, j :: 0 <= i < j < |d| && d[i] in s && d[j] in s ==> FirstIndex(s, d[i]) < FirstIndex(s, d[j])
  }

  /** First-seen order transfers comparisons of positions in `d` to positions in `s`. */
  lemma FirstSeenCompare<T>(d: seq<T>, s: seq<T>, a: T, b: T)
    requires InFirstSeenOrder(d, s) && a in d && b in d && a in s && b in s
    requires FirstIndex(d, a) < FirstIndex(d, b)
    ensures FirstIndex(s, a) < FirstIndex(s, b)
  {
    var p, q := FirstIndex(d, a), FirstIndex(d, b);
    assert d[p] == a && d[q] == b;
  }

  /** Index of the first occurrence of `x` in `s`. */
  function FirstIndex<T(==)>(s: seq<T>, x: T): (i: nat)
    requires x in s
    ensures i < |s| && s[i] == x
    ensures forall j :: 0 <= j < i ==> s[j] != x
  {
    if s[0] == x then 0 else 1 + FirstIndex(s[1..], x)
  }

  lemma {:induction false} FirstIndexOfPrefix<T>(s: seq<T>, t: seq<T>, x: T)
    requires x in s
    ensures x in s + t && FirstIndex(s + t, x) == FirstIndex(s, x)
  {
    if s[0] != x {
      assert (s + t)[1..] == s[1..] + t;
      FirstIndexOfPrefix(s[1..], t, x);
    }
  }

  /** The distinct elements of `s` in first-seen order, as `Array.from(new Set(s))`
      and as the key order of a JavaScript Map filled from `s`. */
  function Dedup<T(==)>(s: seq<T>): seq<T>
  {
    if s == [] then []
    else
      var d := Dedup(s[..|s| - 1]);
      if s[|s| - 1] in s[..|s| - 1] then d else d + [s[|s| - 1]]
  }

  lemma DedupAppend<T>(s: seq<T>, x: T)
    ensures Dedup(s + [x]) == if x in s then Dedup(s) else Dedup(s) + [x]
  {
    assert (s + [x])[..|s|] == s;
  }

  /** Dedup keeps exactly the elements of `s`. */
  lemma {:induction false} DedupElements<T>(s: seq<T>)
    ensures forall x :: x in Dedup(s) <==> x in s
  {
    if s != [] {
      assert s == s[..|s| - 1] + [s[|s| - 1]];
      DedupElements(s[..|s| - 1]);
    }
  }

  /** Dedup keeps exactly the elements of `s`, once each, ordered by where each
      is first seen in `s`. */
  lemma {:induction false} DedupSpec<T>(s: seq<T>)
    ensures forall x :: x in Dedup(s) <==> x in s
    ensures NoDuplicates(Dedup(s))
    ensures InFirstSeenOrder(Dedup(s), s)
  {
    DedupElements(s);
    if s != [] {
      var init, last := s[..|s| - 1], s[|s| - 1];
      assert s == init + [last];
      DedupSpec(init);
      var d := Dedup(init);
      forall i | 0 <= i < |d|
        ensures FirstIndex(s, d[i]) == FirstIndex(init, d[i])
      {
        DedupMember(init, i);
        FirstIndexOfPrefix(init, [last], d[i]);
      }
      if last !in init {
        assert FirstIndex(s, last) == |init|;
        assert Dedup(s) == d + [last];
      }
    }
  }

  lemma DedupMember<T>(s: seq<T>, i: int)
    requires 0 <= i < |Dedup(s)|
    ensures Dedup(s)[i] in s
  {
    DedupElements(s);
    assert Dedup(s)[i] in Dedup(s);
  }

  /** Whether `pat` occurs as a contiguous part of `s` (JavaScript `String.includes`). */
  predicate Contains(s: string, pat: string)
  {
    exists i :: 0 <= i <= |s| - |pat| && OccursAt(s, pat, i)
  }

  predicate OccursAt(s: string, pat: string, i: int)
  {
    0 <= i && i + |pat| <= |s| && s[i..i + |pat|] == pat
  }

  /** `Array.prototype.join(sep)` on a list of strings. */
  function JoinWith(ws: seq<string>, sep: string): string
  {
    if |ws| == 0 then ""
    else if |ws| == 1 then ws[0]
    else ws[0] + sep + JoinWith(ws[1..], sep)
  }

  /** Sum of a list of reals. */
  function Sum(xs: seq<real>): real
  {
    if xs == [] then 0.0 else Sum(xs[..|xs| - 1]) + xs[|xs| - 1]
  }

  /** The arithmetic mean lies within any bounds that hold of every element. */
  lemma {:induction false} MeanWithin(xs: seq<real>, lo: real, hi: real)
    requires xs != []
    requires forall i :: 0 <= i < |xs| ==> lo <= xs[i] <= hi
    ensures lo <= Sum(xs) / (|xs| as real) <= hi
  {
    SumWithin(xs, lo, hi);
    var n := |xs| as real;
    assert lo * n <= Sum(xs) <= hi * n;
  }

  lemma {:induction false} SumWithin(xs: seq<real>, lo: real, hi: real)
    requires forall i :: 0 <= i < |xs| ==> lo <= xs[i] <= hi
    ensures lo * (|xs| as real) <= Sum(xs) <= hi * (|xs| as real)
  {
    if xs != [] {
      SumWithin(xs[..|xs| - 1], lo, hi);
    }
  }

  /** ASCII `toUpperCase` of one character; other characters are unchanged. */
  function ToUpper(c: char): char
  {
    if 'a' <= c <= 'z' then (c as int - 32) as char else c
  }

  /** ASCII `toLowerCase` of one character; other characters are unchanged. */
  function ToLower(c: char): char
  {
    if 'A' <= c <= 'Z' then (c as int + 32) as char else c
  }

  function LowerCase(s: string): (r: string)
    ensures |r| == |s| && forall i :: 0 <= i < |s| ==> r[i] == ToLower(s[i])
  {
    seq(|s|, i requires 0 <= i < |s| => ToLower(s[i]))
  }

  /** JavaScript truthiness of an optional string: present and non-empty. */
  predicate Truthy(s: Option<string>)
  {
    s.Some? && s.value != ""
  }

  /** `r` can be obtained from `s` by deleting elements (matched from the end). */
  predicate IsSubsequence<T(==)>(r: seq<T>, s: seq<T>)
    decreases |s|
  {
    if r == [] then true
    else if s == [] then false
    else if r[|r| - 1] == s[|s| - 1] then IsSubsequence(r[..|r| - 1], s[..|s| - 1])
    else IsSubsequence(r, s[..|s| - 1])
  }

  lemma {:induction false} SubsequenceMembers<T>(r: seq<T>, s: seq<T>)
    requires IsSubsequence(r, s)
    ensures forall x :: x in r ==> x in s
  {
    if r != [] && s != [] {
      if r[|r| - 1] == s[|s| - 1] {
        SubsequenceMembers(r[..|r| - 1], s[..|s| - 1]);
        assert r == r[..|r| - 1] + [r[|r| - 1]];
      } else {
        SubsequenceMembers(r, s[..|s| - 1]);
      }
    }
  }
}
