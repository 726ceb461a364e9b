/** Taking texts apart at a separator and putting them together again. */
module Texts {

  /** The position of the first `c` from `i` on, or the length of the text. */
  function IndexFrom(s: string, c: char, i: nat): (j: nat)
    requires i <= |s|
    ensures i <= j <= |s| && c !in s[i..j] && (j < |s| ==> s[j] == c)
    decreases |s| - i
  {
    if i == |s| || s[i] == c then i
    else
      var j := IndexFrom(s, c, i + 1);
      assert s[i..j] == [s[i]] + s[i + 1..j];
      j
  }

  function Index(s: string, c: char): (j: nat)
    ensures j <= |s| && c !in s[..j] && (j < |s| ==> s[j] == c)
  {
    IndexFrom(s, c, 0)
  }

  /** The parts from position `i` on: one more than there are separators; past the end there are none. */
  function SplitFrom(s: string, c: char, i: nat): (parts: seq<string>)
    ensures i <= |s| ==> parts != []
    decreases |s| + 1 - i
  {
    if i > |s| then []
    else
      var j := IndexFrom(s, c, i);
      [s[i..j]] + SplitFrom(s, c, j + 1)
  }

  function Split(s: string, c: char): (parts: seq<string>)
    ensures parts != []
  {
    SplitFrom(s, c, 0)
  }

  function Join(parts: seq<string>, c: char): string {
    if parts == [] then [] else if |parts| == 1 then parts[0] else parts[0] + [c] + Join(parts[1..], c)
  }

  lemma {:induction false} PartsFromAreFree(s: string, c: char, i: nat)
    ensures forall p :: p in SplitFrom(s, c, i) ==> c !in p
    decreases |s| + 1 - i
  {
    if i <= |s| {
      PartsFromAreFree(s, c, IndexFrom(s, c, i) + 1);
    }
  }

  lemma PartsAreFree(s: string, c: char)
    ensures forall p :: p in Split(s, c) ==> c !in p
  {
    PartsFromAreFree(s, c, 0);
  }

  lemma {:induction false} IndexUnique(s: string, c: char, i: nat, j: nat)
    requires i <= j <= |s| && c !in s[i..j] && (j < |s| ==> s[j] == c)
    ensures IndexFrom(s, c, i) == j
    decreases j - i
  {
    if i < j {
      assert s[i] in s[i..j];
      assert forall x :: x in s[i + 1..j] ==> x in s[i..j];
      IndexUnique(s, c, i + 1, j);
    }
  }

  lemma SliceOfRest(t: string, q: nat, s: string, i: nat, j: nat)
    requires q <= |t| && s == t[q..] && i <= j <= |s|
    ensures t[q + i..q + j] == s[i..j] && (j < |s| ==> t[q + j] == s[j])
  {
  }

  lemma IndexShift(t: string, q: nat, s: string, c: char, i: nat)
    requires q <= |t| && s == t[q..] && i <= |s|
    ensures IndexFrom(t, c, q + i) == q + IndexFrom(s, c, i)
  {
    var j := IndexFrom(s, c, i);
    SliceOfRest(t, q, s, i, j);
    IndexUnique(t, c, q + i, q + j);
  }

  lemma SplitFromStep(s: string, c: char, i: nat, j: nat)
    requires i <= |s| && j == IndexFrom(s, c, i)
    ensures SplitFrom(s, c, i) == [s[i..j]] + SplitFrom(s, c, j + 1)
  {
  }

  lemma SameParts(t: string, u: nat, v: nat, s: string, i: nat, j: nat, c: char)
    requires i <= |s| && u <= |t| && j == IndexFrom(s, c, i) && v == IndexFrom(t, c, u)
    requires t[u..v] == s[i..j] && SplitFrom(t, c, v + 1) == SplitFrom(s, c, j + 1)
    ensures SplitFrom(t, c, u) == SplitFrom(s, c, i)
  {
    SplitFromStep(s, c, i, j);
    SplitFromStep(t, c, u, v);
  }

  /** The parts of `t` from `u` on are those of `s` from `i` on. */
  ghost predicate SplitAlike(t: string, u: nat, s: string, i: nat, c: char) { SplitFrom(t, c, u) == SplitFrom(s, c, i) }

  lemma ShiftStep(t: string, q: nat, s: string, c: char, i: nat, j: nat)
    requires q <= |t| && s == t[q..] && i <= |s| && j == IndexFrom(s, c, i)
    requires SplitAlike(t, q + j + 1, s, j + 1, c)
    ensures SplitAlike(t, q + i, s, i, c)
  {
    IndexShift(t, q, s, c, i);
    SliceOfRest(t, q, s, i, j);
    SameParts(t, q + i, q + j, s, i, j, c);
  }

  lemma NoPartsLeft(t: string, q: nat, s: string, c: char, i: nat)
    requires q <= |t| && s == t[q..] && i > |s|
    ensures SplitAlike(t, q + i, s, i, c)
  {
  }

  /** What comes before does not matter for the parts after it. */
  lemma {:induction false} SplitShift(t: string, q: nat, s: string, c: char, i: nat)
    requires q <= |t| && s == t[q..]
    ensures SplitAlike(t, q + i, s, i, c)
    decreases |s| + 1 - i
  {
    if i <= |s| {
      var j := IndexFrom(s, c, i);
      SplitShift(t, q, s, c, j + 1);
      ShiftStep(t, q, s, c, i, j);
    } else {
      NoPartsLeft(t, q, s, c, i);
    }
  }

  /** Splitting at the first separator. */
  lemma SplitStep(t: string, c: char, k: nat)
    requires k == Index(t, c)
    ensures Split(t, c) == [t[..k]] + if k == |t| then [] else Split(t[k + 1..], c)
  {
    assert t[0..k] == t[..k];
    if k < |t| {
      SplitShift(t, k + 1, t[k + 1..], c, 0);
    } else {
      assert SplitFrom(t, c, k + 1) == [];
    }
  }

  lemma SplitFirst(a: string, rest: string, c: char)
    requires c !in a
    ensures Split(a + [c] + rest, c) == [a] + Split(rest, c)
  {
    var s := a + [c] + rest;
    assert s[0..|a|] == s[..|a|] == a && s[|a|] == c && s[|a| + 1..] == rest;
    IndexUnique(s, c, 0, |a|);
    SplitStep(s, c, |a|);
  }

  lemma SplitWhole(a: string, c: char)
    requires c !in a
    ensures Split(a, c) == [a]
  {
    assert a[0..|a|] == a && a[..|a|] == a;
    IndexUnique(a, c, 0, |a|);
    SplitStep(a, c, |a|);
  }

  /** Joining and splitting are inverse. */
  lemma {:induction false} SplitOfJoin(parts: seq<string>, c: char)
    requires parts != [] && forall p :: p in parts ==> c !in p
    ensures Split(Join(parts, c), c) == parts
  {
    if |parts| == 1 {
      SplitWhole(parts[0], c);
    } else {
      SplitOfJoin(parts[1..], c);
      SplitFirst(parts[0], Join(parts[1..], c), c);
      assert parts == [parts[0]] + parts[1..];
    }
  }

  lemma JoinStep(first: string, rest: seq<string>, c: char)
    ensures Join([first] + rest, c) == if rest == [] then first else first + [c] + Join(rest, c)
  {
    assert ([first] + rest)[1..] == rest;
  }

  lemma JoinHalves(s: string, c: char, i: nat)
    requires i == Index(s, c) && i < |s| && Join(Split(s[i + 1..], c), c) == s[i + 1..]
    ensures Join(Split(s, c), c) == s
  {
    SplitStep(s, c, i);
    JoinStep(s[..i], Split(s[i + 1..], c), c);
    assert s == s[..i] + [c] + s[i + 1..];
  }

  lemma {:induction false} JoinOfSplit(s: string, c: char)
    ensures Join(Split(s, c), c) == s
    decreases |s|
  {
    var i := Index(s, c);
    if i < |s| {
      JoinOfSplit(s[i + 1..], c);
      JoinHalves(s, c, i);
    } else {
      SplitWhole(s, c);
      assert s[..i] == s;
    }
  }
}
