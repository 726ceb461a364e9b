/**
 Rotating log files. A file is the list of its lines; file 0 is the one that is written, file `k` the one that was
 rotated `k` times, and any of them may be missing. Lines hold no line break, so writing and reading them back is exact.
 */
module LogRotation {
  import opened Options
  import Folds

  type Line = string

  type Files = map<nat, seq<Line>>

  /** The lines of a file; a missing file has none. */
  function At(files: Files, k: nat): seq<Line> { if k in files then files[k] else [] }

  /** Everything that files `0` to `k` hold, oldest first. */
  function Retained(files: Files, k: nat): seq<Line> {
    At(files, k) + if k == 0 then [] else Retained(files, k - 1)
  }

  function Size(lines: seq<Line>): nat {
    if lines == [] then 0 else Size(lines[..|lines| - 1]) + |lines[|lines| - 1]| + 1
  }

  // ---------------------------------------------------------------- rotating

  /** File `k` is there, and what it holds, as file `j` was. */
  predicate SameFile(after: Files, k: nat, before: Files, j: nat) {
    (k in after <==> j in before) && (k in after ==> after[k] == before[j])
  }

  predicate MovedUp(after: Files, k: nat, before: Files) { k > 0 && SameFile(after, k, before, k - 1) }

  /** File `k` becomes what file `k - 1` was, there or not; those past the last are left alone. */
  ghost predicate Shifted(before: Files, after: Files, count: nat) {
    && 0 in after && after[0] == []
    && (forall k :: 1 <= k <= count ==> MovedUp(after, k, before))
    && (forall k :: k > count ==> SameFile(after, k, before, k))
  }

  /** The loop has moved the files from `index` on; the place of `index` is free. */
  ghost predicate PartlyShifted(before: Files, after: Files, count: nat, index: nat) {
    && index !in after && 1 <= index <= count
    && (forall k :: 0 <= k < index ==> SameFile(after, k, before, k))
    && (forall k :: index < k <= count ==> MovedUp(after, k, before))
    && (forall k :: k > count ==> SameFile(after, k, before, k))
  }

  /** Renaming file `from` to `to`. */
  function Renamed(files: Files, from: nat, to: nat): Files
    requires from in files
  {
    files[to := files[from]] - {from}
  }

  lemma MoveOne(before: Files, files: Files, count: nat, index: nat)
    requires PartlyShifted(before, files, count, index) && index > 1
    ensures var after := if index - 1 in files then Renamed(files - {index}, index - 1, index) else files;
      PartlyShifted(before, after, count, index - 1)
  {
    var after := if index - 1 in files then Renamed(files - {index}, index - 1, index) else files;
    assert SameFile(files, index - 1, before, index - 1);
    forall k | 0 <= k < index - 1 ensures SameFile(after, k, before, k) {
      assert SameFile(files, k, before, k);
    }
    forall k | index < k <= count ensures MovedUp(after, k, before) {
      assert MovedUp(files, k, before);
    }
    forall k | k > count ensures SameFile(after, k, before, k) {
      assert SameFile(files, k, before, k);
    }
  }

  lemma MoveFirst(before: Files, files: Files, count: nat)
    requires PartlyShifted(before, files, count, 1) && 0 in before
    ensures 0 in files && Shifted(before, Renamed(files - {1}, 0, 1)[0 := []], count)
  {
    assert SameFile(files, 0, before, 0);
    var after := Renamed(files - {1}, 0, 1)[0 := []];
    forall k | 1 <= k <= count ensures MovedUp(after, k, before) {
      assert k > 1 ==> MovedUp(files, k, before);
    }
    forall k | k > count ensures SameFile(after, k, before, k) {
      assert SameFile(files, k, before, k);
    }
  }

  lemma ShiftedAt(before: Files, after: Files, count: nat, k: nat)
    requires Shifted(before, after, count) && k <= count
    ensures At(after, k) == if k == 0 then [] else At(before, k - 1)
  {
    assert k > 0 ==> MovedUp(after, k, before);
  }

  lemma {:induction false} ShiftedRetained(before: Files, after: Files, count: nat, k: nat)
    requires Shifted(before, after, count) && 0 < k <= count
    ensures Retained(after, k) == Retained(before, k - 1)
  {
    ShiftedAt(before, after, count, k);
    ShiftedAt(before, after, count, 0);
    if k > 1 {
      ShiftedRetained(before, after, count, k - 1);
    } else {
      assert Retained(after, 0) == [];
    }
  }

  predicate IsSuffix(a: seq<Line>, b: seq<Line>) { |a| <= |b| && b[|b| - |a|..] == a }

  /** A rotation drops the lines of the oldest file and nothing else. */
  lemma RotationDropsOldest(before: Files, after: Files, count: nat)
    requires Shifted(before, after, count) && count > 0
    ensures Retained(before, count) == At(before, count) + Retained(after, count)
  {
    ShiftedRetained(before, after, count, count);
  }

  lemma SuffixTrans(a: seq<Line>, b: seq<Line>, c: seq<Line>)
    requires IsSuffix(a, b) && IsSuffix(b, c)
    ensures IsSuffix(a, c)
  {
    assert b == c[|c| - |b|..];
    assert a == c[|c| - |b|..][|b| - |a|..] == c[|c| - |a|..];
  }

  lemma SuffixAppend(a: seq<Line>, b: seq<Line>, x: Line)
    requires IsSuffix(a, b)
    ensures IsSuffix(a + [x], b + [x])
  {
    assert (b + [x])[|b| - |a|..] == b[|b| - |a|..] + [x];
  }

  lemma SuffixStep(after: seq<Line>, held: seq<Line>, all: seq<Line>, x: Line)
    requires IsSuffix(after, held + [x]) && IsSuffix(held, all)
    ensures IsSuffix(after, all + [x])
  {
    SuffixAppend(held, all, x);
    SuffixTrans(after, held + [x], all + [x]);
  }

  lemma {:induction false} RetainedAppend(files: Files, k: nat, x: Line)
    ensures Retained(Appended(files, x), k) == Retained(files, k) + [x]
  {
    if k > 0 {
      RetainedAppend(files, k - 1, x);
    }
  }

  /** Whether there is a file `k` after a rotation, and what it holds. */
  predicate Moved(files: Files, count: nat, k: nat) { k == 0 || (if k <= count then k - 1 else k) in files }

  function MovedFile(files: Files, count: nat, k: nat): seq<Line> {
    if k == 0 then [] else At(files, if k <= count then k - 1 else k)
  }

  function Successors(keys: set<nat>): set<nat> { set k | k in keys :: k + 1 }

  /** The files after a rotation. */
  function Rotated(files: Files, count: nat): Files {
    map k | k in {0} + files.Keys + Successors(files.Keys) && Moved(files, count, k) :: MovedFile(files, count, k)
  }

  lemma RotatedAt(files: Files, count: nat, k: nat)
    ensures k in Rotated(files, count) <==> Moved(files, count, k)
    ensures k in Rotated(files, count) ==> Rotated(files, count)[k] == MovedFile(files, count, k)
  {
    if 0 < k && k - 1 in files {
      assert k - 1 + 1 in Successors(files.Keys);
    }
  }

  lemma RotatedIsShifted(files: Files, count: nat)
    ensures Shifted(files, Rotated(files, count), count)
  {
    var after := Rotated(files, count);
    RotatedAt(files, count, 0);
    forall k | 1 <= k <= count ensures MovedUp(after, k, files) {
      RotatedAt(files, count, k);
    }
    forall k | k > count ensures SameFile(after, k, files, k) {
      RotatedAt(files, count, k);
    }
  }

  lemma ShiftedIsRotated(before: Files, after: Files, count: nat)
    requires Shifted(before, after, count)
    ensures after == Rotated(before, count)
  {
    var other := Rotated(before, count);
    forall k: nat ensures SameFile(after, k, other, k) {
      RotatedAt(before, count, k);
      assert 1 <= k <= count ==> MovedUp(after, k, before);
      assert k > count ==> SameFile(after, k, before, k);
    }
    SameFiles(after, other);
  }

  lemma SameFiles(a: Files, b: Files)
    requires forall k: nat :: SameFile(a, k, b, k)
    ensures a == b
  {
    forall k: nat ensures k in a <==> k in b {
      assert SameFile(a, k, b, k);
    }
    forall k: nat | k in a ensures a[k] == b[k] {
      assert SameFile(a, k, b, k);
    }
  }

  /** The line does not fit in a file that already has one. */
  predicate Rotates(files: Files, line: Line, maximum: nat) {
    Size(At(files, 0)) != 0 && Size(At(files, 0)) + |line| + 1 > maximum
  }

  /** The files after a line was written: it goes to the end of file 0, which is rotated away first if it is full. */
  function Wrote(files: Files, line: Line, maximum: nat, count: nat): Files {
    Appended(if Rotates(files, line, maximum) then Rotated(files, count) else files, line)
  }

  function Rotation(files: Files, line: Line, maximum: nat): nat { if Rotates(files, line, maximum) then 1 else 0 }

  function Writing(maximum: nat, count: nat): (Files, Line) -> Files { (f, l) => Wrote(f, l, maximum, count) }

  function Rotating(maximum: nat): (Files, Line) -> nat { (f, l) => Rotation(f, l, maximum) }

  /** The files after a run of writes, and how many rotations they cause. */
  function WroteAll(files: Files, lines: seq<Line>, maximum: nat, count: nat): Files {
    Folds.After(Writing(maximum, count), files, lines)
  }

  function Rotations(files: Files, lines: seq<Line>, maximum: nat, count: nat): nat {
    Folds.Sum(Writing(maximum, count), Rotating(maximum), files, lines)
  }

  /** The file that is written gets the line at its end. */
  function Appended(files: Files, line: Line): Files { files[0 := At(files, 0) + [line]] }

  lemma AppendedAfterRotation(files: Files, line: Line, count: nat, k: nat)
    requires 0 < k <= count
    ensures Retained(Appended(Rotated(files, count), line), k) == Retained(files, k - 1) + [line]
  {
    RotatedIsShifted(files, count);
    ShiftedRetained(files, Rotated(files, count), count, k);
    RetainedAppend(Rotated(files, count), k, line);
  }

  /** Files `0` to `k` hold the line, after what they held before, in one file less if there was a rotation. */
  lemma WroteHolds(files: Files, line: Line, maximum: nat, count: nat, k: nat)
    requires Rotation(files, line, maximum) <= k <= count
    ensures Retained(Wrote(files, line, maximum, count), k) ==
            Retained(files, k - Rotation(files, line, maximum)) + [line]
  {
    if Rotates(files, line, maximum) {
      AppendedAfterRotation(files, line, count, k);
    } else {
      RetainedAppend(files, k, line);
    }
  }

  lemma Regroup<T>(a: seq<T>, b: seq<T>, x: T)
    ensures a + b + [x] == a + (b + [x])
  {
  }

  /** After `r` rotations the files hold `lines`, after what the files that are rotated `r` times less held at first. */
  ghost predicate Holds(first: Files, count: nat, files: Files, r: nat, lines: seq<Line>) {
    forall j: nat :: j + r <= count ==> HoldsAt(first, j, files, r, lines)
  }

  ghost predicate HoldsAt(first: Files, j: nat, files: Files, r: nat, lines: seq<Line>) {
    Retained(files, j + r) == Retained(first, j) + lines
  }

  lemma HoldsStepAt(
    first: Files, j: nat, files: Files, r: nat, lines: seq<Line>, line: Line, maximum: nat, count: nat, b: nat)
    requires HoldsAt(first, j, files, r, lines) && b == Rotation(files, line, maximum) && j + r + b <= count
    ensures HoldsAt(first, j, Wrote(files, line, maximum, count), r + b, lines + [line])
  {
    WroteHolds(files, line, maximum, count, j + r + b);
    assert j + (r + b) == j + r + b && j + r + b - b == j + r;
    Regroup(Retained(first, j), lines, line);
  }

  lemma HoldsStep(first: Files, files: Files, r: nat, lines: seq<Line>, line: Line, maximum: nat, count: nat)
    requires Holds(first, count, files, r, lines)
    ensures Holds(first, count, Wrote(files, line, maximum, count), r + Rotation(files, line, maximum), lines + [line])
  {
    var b, after, more := Rotation(files, line, maximum), Wrote(files, line, maximum, count), lines + [line];
    var total := r + b;
    forall j: nat | j + total <= count ensures HoldsAt(first, j, after, total, more) {
      assert HoldsAt(first, j, files, r, lines);
      HoldsStepAt(first, j, files, r, lines, line, maximum, count, b);
    }
  }

  /**
   After any writes that cause at most `count` rotations no line is lost: the files hold every line that was written,
   after exactly what the files that are rotated less often held before.
   */
  lemma LinesAreKept(files: Files, lines: seq<Line>, maximum: nat, count: nat)
    ensures Holds(files, count, WroteAll(files, lines, maximum, count), Rotations(files, lines, maximum, count), lines)
  {
    var claim := (f, r, ls) => Holds(files, count, f, r, ls);
    forall f: Files, r: nat, ls: seq<Line>, l: Line
      ensures Folds.Extends(Writing(maximum, count), Rotating(maximum), claim, f, r, ls, l)
    {
      if Holds(files, count, f, r, ls) {
        HoldsStep(files, f, r, ls, l, maximum, count);
      }
    }
    HoldsNothing(files, count);
    Folds.Keeps(Writing(maximum, count), Rotating(maximum), claim, files, lines);
  }

  lemma HoldsNothing(files: Files, count: nat)
    ensures Holds(files, count, files, 0, [])
  {
    forall j: nat | j + 0 <= count ensures HoldsAt(files, j, files, 0, []) {
      assert j + 0 == j && Retained(files, j) + [] == Retained(files, j);
    }
  }

  lemma WroteRetains(files: Files, line: Line, maximum: nat, count: nat)
    requires count > 0
    ensures IsSuffix(Retained(Wrote(files, line, maximum, count), count), Retained(files, count) + [line])
  {
    WroteHolds(files, line, maximum, count, count);
    if Rotates(files, line, maximum) {
      SuffixOfSum(At(files, count), Retained(files, count - 1));
      SuffixAppend(Retained(files, count - 1), Retained(files, count), line);
    } else {
      SuffixSelf(Retained(files, count) + [line]);
    }
  }

  lemma SuffixOfSum(a: seq<Line>, b: seq<Line>)
    ensures IsSuffix(b, a + b)
  {
  }

  /** After any writes and the rotations they cause, the files hold the end of everything that was written. */
  lemma FilesHoldTheEnd(files: Files, lines: seq<Line>, maximum: nat, count: nat)
    requires count > 0
    ensures IsSuffix(Retained(WroteAll(files, lines, maximum, count), count), Retained(files, count) + lines)
  {
    var first := Retained(files, count);
    var claim := (f: Files, r: nat, ls: seq<Line>) => IsSuffix(Retained(f, count), first + ls);
    forall f: Files, r: nat, ls: seq<Line>, l: Line
      ensures Folds.Extends(Writing(maximum, count), Rotating(maximum), claim, f, r, ls, l)
    {
      if IsSuffix(Retained(f, count), first + ls) {
        WroteRetains(f, l, maximum, count);
        SuffixStep(Retained(Wrote(f, l, maximum, count), count), Retained(f, count), first + ls, l);
        Regroup(first, ls, l);
      }
    }
    SuffixSelf(first);
    assert first + [] == first;
    Folds.Keeps(Writing(maximum, count), Rotating(maximum), claim, files, lines);
  }

  // ---------------------------------------------------------------- when a file is rotated

  lemma SizeOfLine(line: Line)
    ensures Size([line]) == |line| + 1
  {
    SizeAppend([], line);
    assert [] + [line] == [line];
  }

  /** A file that has lines is rotated exactly if the next one would make it longer than the maximum, and else grows. */
  lemma RotatesIff(files: Files, line: Line, maximum: nat, count: nat)
    requires At(files, 0) != []
    ensures var after := Wrote(files, line, maximum, count);
      && At(after, 0) == (if Size(At(files, 0) + [line]) > maximum then [line] else At(files, 0) + [line])
      && (At(after, 0) == [line] <==> Size(At(files, 0)) + Size([line]) > maximum)
  {
    WroteAt(files, line, maximum, count, 0);
    SizeAppend(At(files, 0), line);
    SizeOfLine(line);
    EmptySize(At(files, 0));
  }

  /** An empty file takes any line. */
  lemma FirstLineStays(files: Files, line: Line, maximum: nat, count: nat)
    requires At(files, 0) == []
    ensures At(Wrote(files, line, maximum, count), 0) == [line]
    ensures forall k: nat :: 0 < k <= count ==> At(Wrote(files, line, maximum, count), k) == At(files, k)
  {
    forall k: nat | k <= count
      ensures At(Wrote(files, line, maximum, count), k) == if k == 0 then [line] else At(files, k)
    {
      WroteAt(files, line, maximum, count, k);
    }
  }

  // ---------------------------------------------------------------- how large the log becomes

  /** Every file is at most `limit` bytes long. */
  ghost predicate Within(files: Files, count: nat, limit: nat) {
    forall k: nat :: k <= count ==> Size(At(files, k)) <= limit
  }

  predicate Fit(lines: seq<Line>, limit: nat) { forall i :: 0 <= i < |lines| ==> |lines[i]| + 1 <= limit }

  /** What a write makes of each file. */
  lemma WroteAt(files: Files, line: Line, maximum: nat, count: nat, k: nat)
    requires k <= count
    ensures At(Wrote(files, line, maximum, count), k) ==
            if Rotates(files, line, maximum) then if k == 0 then [line] else At(files, k - 1)
            else if k == 0 then At(files, 0) + [line] else At(files, k)
  {
    if Rotates(files, line, maximum) {
      var ready := Rotated(files, count);
      RotatedIsShifted(files, count);
      ShiftedAt(files, ready, count, k);
      ShiftedAt(files, ready, count, 0);
      assert [] + [line] == [line];
    }
  }

  lemma WroteSize(files: Files, line: Line, maximum: nat, limit: nat)
    requires maximum <= limit && |line| + 1 <= limit && !Rotates(files, line, maximum)
    ensures Size(At(files, 0) + [line]) <= limit
  {
    SizeAppend(At(files, 0), line);
  }

  lemma WroteWithin(files: Files, line: Line, maximum: nat, count: nat, limit: nat)
    requires Within(files, count, limit) && maximum <= limit && |line| + 1 <= limit
    ensures Within(Wrote(files, line, maximum, count), count, limit)
  {
    var after := Wrote(files, line, maximum, count);
    forall k: nat | k <= count ensures Size(At(after, k)) <= limit {
      WroteAt(files, line, maximum, count, k);
      if Rotates(files, line, maximum) {
        SizeAppend([], line);
        assert [] + [line] == [line];
      } else if k == 0 {
        WroteSize(files, line, maximum, limit);
      }
    }
  }

  lemma {:induction false} SizeConcat(a: seq<Line>, b: seq<Line>)
    ensures Size(a + b) == Size(a) + Size(b)
    decreases |b|
  {
    if |b| == 0 {
      assert a + b == a;
    } else {
      var n := |b| - 1;
      SizeConcat(a, b[..n]);
      assert a + b == a + b[..n] + [b[n]];
      SizeAppend(a + b[..n], b[n]);
    }
  }

  lemma {:induction false} RetainedSize(files: Files, count: nat, k: nat, limit: nat)
    requires Within(files, count, limit) && k <= count
    ensures Size(Retained(files, k)) <= (k + 1) * limit
  {
    SizeConcat(At(files, k), if k == 0 then [] else Retained(files, k - 1));
    if k > 0 {
      RetainedSize(files, count, k - 1, limit);
      assert (k + 1) * limit == k * limit + limit;
    }
  }

  /**
   The whole log stays within a bound: if no file is longer than `limit` at first and no line is, then after any writes
   no file is, and all of them together have at most `count + 1` times as many bytes.
   */
  lemma LogIsBounded(files: Files, lines: seq<Line>, maximum: nat, count: nat, limit: nat)
    requires Within(files, count, limit) && maximum <= limit && Fit(lines, limit)
    ensures var after := WroteAll(files, lines, maximum, count);
      Within(after, count, limit) && Size(Retained(after, count)) <= (count + 1) * limit
  {
    var claim := (f: Files, r: nat, ls: seq<Line>) => Fit(ls, limit) ==> Within(f, count, limit);
    forall f: Files, r: nat, ls: seq<Line>, l: Line
      ensures Folds.Extends(Writing(maximum, count), Rotating(maximum), claim, f, r, ls, l)
    {
      if Fit(ls + [l], limit) && claim(f, r, ls) {
        FitPrefix(ls, l, limit);
        WroteWithin(f, l, maximum, count, limit);
      }
    }
    Folds.Keeps(Writing(maximum, count), Rotating(maximum), claim, files, lines);
    RetainedSize(WroteAll(files, lines, maximum, count), count, count, limit);
  }

  lemma FitPrefix(lines: seq<Line>, line: Line, limit: nat)
    requires Fit(lines + [line], limit)
    ensures Fit(lines, limit) && |line| + 1 <= limit
  {
    var all := lines + [line];
    assert all[|lines|] == line;
    assert forall i :: 0 <= i < |lines| ==> all[i] == lines[i];
  }

  // ---------------------------------------------------------------- reading back

  const MAXIMUM_LINE := 1024 * 1024

  /** The lines that are not too long to be read back. */
  function Readable(lines: seq<Line>): seq<Line> {
    if lines == [] then []
    else
      var n := |lines| - 1;
      Readable(lines[..n]) + if |lines[n]| > MAXIMUM_LINE then [] else [lines[n]]
  }

  lemma {:induction false} AllReadable(lines: seq<Line>)
    requires forall i :: 0 <= i < |lines| ==> |lines[i]| <= MAXIMUM_LINE
    ensures Readable(lines) == lines
  {
    if lines != [] {
      var n := |lines| - 1;
      AllReadable(lines[..n]);
      assert lines == lines[..n] + [lines[n]];
    }
  }

  /** What is read back are the lines of at most 1 MiB. */
  lemma {:induction false} ReadableIff(lines: seq<Line>, line: Line)
    ensures line in Readable(lines) <==> line in lines && |line| <= 1048576
  {
    if lines != [] {
      var n := |lines| - 1;
      ReadableIff(lines[..n], line);
      assert lines == lines[..n] + [lines[n]];
    }
  }

  /** The last lines that files `0` to `k` hold. */
  function Tail(files: Files, k: nat, limit: nat): seq<Line> { Last(Readable(Retained(files, k)), limit) }

  /** The last lines of file `k` before `newer` ones. */
  function Prepended(files: Files, k: nat, limit: nat, newer: seq<Line>): (r: seq<Line>)
    requires |newer| <= limit
    ensures |r| <= limit
  {
    Last(Readable(At(files, k)), limit - |newer|) + newer
  }

  function Last(lines: seq<Line>, n: nat): seq<Line> { if |lines| <= n then lines else lines[|lines| - n..] }

  lemma {:induction false} ReadableAppend(a: seq<Line>, b: seq<Line>)
    ensures Readable(a + b) == Readable(a) + Readable(b)
  {
    if b == [] {
      assert a + b == a;
    } else {
      var n := |b| - 1;
      ReadableAppend(a, b[..n]);
      assert (a + b)[..|a + b| - 1] == a + b[..n] && (a + b)[|a + b| - 1] == b[n];
    }
  }

  lemma LastAppend(a: seq<Line>, b: seq<Line>, n: nat)
    requires |b| <= n
    ensures Last(a + b, n) == Last(a, n - |b|) + b
  {
    if |a + b| > n {
      assert (a + b)[|a + b| - n..] == a[|a| - (n - |b|)..] + b;
    }
  }

  lemma LastEnough(a: seq<Line>, b: seq<Line>, n: nat)
    requires |b| >= n
    ensures Last(a + b, n) == Last(b, n)
  {
    assert (a + b)[|a + b| - n..] == b[|b| - n..];
  }

  // ---------------------------------------------------------------- the object

  class RotatingLog {
    const maximum: nat
    const count: nat
    var files: Files
    var bytes: nat

    ghost predicate Valid()
      reads this
    {
      count > 0 && 0 in files && bytes == Size(files[0])
    }

    /** Opens what an earlier process left. */
    constructor (maximum: nat, count: nat, left: Files)
      requires maximum >= 1024 && 1 <= count <= 100
      ensures Valid() && this.maximum == maximum && this.count == count
      ensures Retained(files, count) == Retained(left, count)
    {
      this.maximum, this.count := maximum, count;
      files := if 0 in left then left else left[0 := []];
      bytes := Size(At(left, 0));
      new;
      OpenRetained(left, count);
    }

    /** Shifts every file by one; the last is lost. */
    method Rotate()
      requires Valid()
      modifies this
      ensures Valid() && Shifted(old(files), files, count) && files == Rotated(old(files), count)
    {
      ghost var before := files;
      files := files - {count};
      var index := count;
      while index > 1
        invariant PartlyShifted(before, files, count, index)
      {
        MoveOne(before, files, count, index);
        if index - 1 in files {
          files := files - {index};
          files := Renamed(files, index - 1, index);
        }
        index := index - 1;
      }
      MoveFirst(before, files, count);
      files := files - {1};
      files := Renamed(files, 0, 1);
      files := files[0 := []];
      bytes := 0;
      ShiftedIsRotated(before, files, count);
    }

    method WriteLine(line: Line)
      requires Valid()
      modifies this
      ensures Valid() && files == Wrote(old(files), line, maximum, count)
      ensures Size(files[0]) <= maximum || |files[0]| == 1
    {
      EmptySize(files[0]);
      if bytes != 0 && bytes + |line| + 1 > maximum {
        Rotate();
      }
      SizeAppend(files[0], line);
      files := files[0 := files[0] + [line]];
      bytes := bytes + |line| + 1;
    }

    /** The last lines, from all files. */
    method RecentLines(limit: nat) returns (lines: Option<seq<Line>>)
      ensures lines == if 1 <= limit <= 100000 then Some(Tail(files, count, limit)) else None
    {
      if limit == 0 || limit > 100000 {
        return None;
      }
      var read := ReadTail(files, count, limit);
      TailFromIsTail(files, count, limit);
      lines := Some(read);
    }
  }

  /** A log with limits in range, and none with any other. */
  method OpenLog(maximum: nat, count: nat, left: Files) returns (log: Option<RotatingLog>)
    ensures log.Some? <==> maximum >= 1024 && 1 <= count <= 100
    ensures log.Some? ==>
      && fresh(log.value) && log.value.Valid() && log.value.maximum == maximum && log.value.count == count
      && Retained(log.value.files, count) == Retained(left, count)
  {
    if maximum < 1024 || count == 0 || count > 100 {
      return None;
    }
    var made := new RotatingLog(maximum, count, left);
    log := Some(made);
  }

  /** Newest file first, until there are enough lines. */
  function TailFrom(files: Files, k: nat, limit: nat): (r: seq<Line>)
    ensures |r| <= limit
  {
    if k == 0 then Prepended(files, 0, limit, [])
    else
      var newer := TailFrom(files, k - 1, limit);
      if |newer| < limit then Prepended(files, k, limit, newer) else newer
  }

  lemma {:induction false} TailFromStays(files: Files, k: nat, count: nat, limit: nat)
    requires k <= count && |TailFrom(files, k, limit)| >= limit
    ensures TailFrom(files, count, limit) == TailFrom(files, k, limit)
  {
    if k < count {
      TailFromStays(files, k, count - 1, limit);
    }
  }

  method ReadTail(files: Files, count: nat, limit: nat) returns (lines: seq<Line>)
    ensures lines == TailFrom(files, count, limit)
  {
    lines := PrependFile(files, 0, limit, []);
    var index := 0;
    while index < count && |lines| < limit
      invariant 0 <= index <= count && lines == TailFrom(files, index, limit)
    {
      lines := PrependFile(files, index + 1, limit, lines);
      index := index + 1;
    }
    if index < count {
      TailFromStays(files, index, count, limit);
    }
  }

  /** What is read is the end of what the files hold together. */
  lemma {:induction false} TailFromIsTail(files: Files, k: nat, limit: nat)
    ensures TailFrom(files, k, limit) == Tail(files, k, limit)
  {
    if k == 0 {
      NewestFile(files, limit);
    } else {
      TailFromIsTail(files, k - 1, limit);
      if |TailFrom(files, k - 1, limit)| < limit {
        OlderFile(files, k, limit);
      } else {
        OneMoreFile(files, k, limit);
      }
    }
  }

  /** The last lines of one file go before what was read from newer files. */
  method PrependFile(files: Files, k: nat, limit: nat, newer: seq<Line>) returns (lines: seq<Line>)
    requires |newer| <= limit
    ensures lines == Prepended(files, k, limit, newer)
  {
    var remaining := limit - |newer|;
    if remaining == 0 {
      LastNone(Readable(At(files, k)));
      return newer;
    }
    var input := At(files, k);
    var fileLines: seq<Line> := [];
    var i := 0;
    while i < |input|
      invariant 0 <= i <= |input| && fileLines == Last(Readable(input[..i]), remaining)
    {
      ReadStep(input, i, remaining);
      fileLines := WithLine(fileLines, input[i], remaining);
      i := i + 1;
    }
    assert input[..i] == input;
    lines := fileLines + newer;
  }

  /** A line that was read: too long ones are skipped, and the first goes when there are more than `n`. */
  function WithLine(lines: seq<Line>, line: Line, n: nat): seq<Line> {
    if |line| > MAXIMUM_LINE then lines
    else
      var more := lines + [line];
      if |more| > n then more[1..] else more
  }

  lemma ReadStep(input: seq<Line>, i: nat, n: nat)
    requires i < |input| && n > 0
    ensures WithLine(Last(Readable(input[..i]), n), input[i], n) == Last(Readable(input[..i + 1]), n)
  {
    ReadableStep(input, i);
    if |input[i]| <= MAXIMUM_LINE {
      LastStep(Readable(input[..i]), input[i], n);
    }
  }

  lemma LastNone(lines: seq<Line>)
    ensures Last(lines, 0) == []
  {
  }

  lemma ReadableStep(input: seq<Line>, i: nat)
    requires i < |input|
    ensures Readable(input[..i + 1]) == Readable(input[..i]) + if |input[i]| > MAXIMUM_LINE then [] else [input[i]]
  {
    assert input[..i + 1][..i] == input[..i];
  }

  lemma LastStep(a: seq<Line>, x: Line, n: nat)
    requires n > 0
    ensures var more := Last(a, n) + [x]; Last(a + [x], n) == if |more| > n then more[1..] else more
  {
  }

  lemma SuffixSelf(a: seq<Line>)
    ensures IsSuffix(a, a)
  {
    assert a[0..] == a;
  }

  lemma SizeAppend(lines: seq<Line>, line: Line)
    ensures Size(lines + [line]) == Size(lines) + |line| + 1
  {
    var more := lines + [line];
    assert more[..|more| - 1] == lines;
  }

  lemma EmptySize(lines: seq<Line>)
    ensures Size(lines) == 0 <==> lines == []
  {
  }

  lemma NewestFile(files: Files, limit: nat)
    ensures Prepended(files, 0, limit, []) == Tail(files, 0, limit) && |Tail(files, 0, limit)| <= limit
  {
    assert Retained(files, 0) == At(files, 0);
  }

  /** When no line is too long, what is read back is the last lines that the files hold. */
  lemma ShortLinesReadBack(files: Files, k: nat, limit: nat)
    requires forall i :: 0 <= i < |Retained(files, k)| ==> |Retained(files, k)[i]| <= MAXIMUM_LINE
    ensures Tail(files, k, limit) == Last(Retained(files, k), limit)
  {
    AllReadable(Retained(files, k));
  }

  lemma ReadableFiles(files: Files, k: nat)
    requires k > 0
    ensures Readable(Retained(files, k)) == Readable(At(files, k)) + Readable(Retained(files, k - 1))
  {
    ReadableAppend(At(files, k), Retained(files, k - 1));
  }

  lemma LastIsAll(a: seq<Line>, n: nat)
    requires |Last(a, n)| < n
    ensures Last(a, n) == a
  {
  }

  /** Reading one more file, when the newer ones had too few lines. */
  lemma OlderFile(files: Files, k: nat, limit: nat)
    requires k > 0 && |Tail(files, k - 1, limit)| < limit
    ensures Prepended(files, k, limit, Tail(files, k - 1, limit)) == Tail(files, k, limit)
    ensures |Tail(files, k, limit)| <= limit
  {
    var older, newer := Readable(At(files, k)), Readable(Retained(files, k - 1));
    ReadableFiles(files, k);
    LastIsAll(newer, limit);
    LastAppend(older, newer, limit);
  }

  lemma OneMoreFile(files: Files, k: nat, limit: nat)
    requires k > 0 && |Tail(files, k - 1, limit)| == limit
    ensures Tail(files, k, limit) == Tail(files, k - 1, limit)
  {
    ReadableFiles(files, k);
    LastEnough(Readable(At(files, k)), Readable(Retained(files, k - 1)), limit);
  }

  lemma {:induction false} OpenRetained(left: Files, k: nat)
    ensures 0 !in left ==> Retained(left[0 := []], k) == Retained(left, k)
  {
    if k > 0 {
      OpenRetained(left, k - 1);
    }
  }
}
