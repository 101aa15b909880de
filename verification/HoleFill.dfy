/**
 Filling the gaps of a remote recording from local files: the holes between the joined remote intervals, and
 the pieces that are cut out of the local files that overlap them. Times are whole seconds, which is the
 resolution of the file names.
 */
module HoleFill {
  import opened Options

  /** The times in a file name. */
  datatype Span = Span(begin: int, end: int)

  /** A local file. */
  datatype Range = Range(begin: int, end: int, file: string)

  /** A whole file, or the seconds [startSec, endSec) of it. */
  datatype Filler = Copy(file: string) | Crop(file: string, startSec: int, endSec: int, outBegin: int, outEnd: int)

  const MIN_DIFF := 2
  const MAX_JOIN := 5

  function Max(x: int, y: int): int {
    if x < y then y else x
  }

  function Min(x: int, y: int): int {
    if x < y then x else y
  }

  function Abs(x: int): int {
    if x < 0 then -x else x
  }

  // ---------- the pieces for one hole ----------

  function GetFiller(file: string, rangeBegin: int, rangeEnd: int, holeBegin: int, holeEnd: int): Filler {
    var portionBegin, portionEnd := Max(rangeBegin, holeBegin), Min(rangeEnd, holeEnd);
    var deltaBegin, deltaEnd := Abs(portionBegin - rangeBegin), Abs(rangeEnd - portionEnd);
    if deltaBegin < MIN_DIFF && deltaEnd < MIN_DIFF then Copy(file)
    else Crop(file, if deltaBegin < MIN_DIFF then 0 else deltaBegin, Abs(portionEnd - rangeBegin),
              portionBegin, portionEnd)
  }

  predicate Overlaps(r: Range, holeBegin: int, holeEnd: int) {
    r.end > holeBegin && r.begin < holeEnd
  }

  function FillerOf(r: Range, holeBegin: int, holeEnd: int): Filler {
    GetFiller(r.file, r.begin, r.end, Max(r.begin, holeBegin), Min(r.end, holeEnd))
  }

  /** The loop over the local files, with its early end. */
  function Fillers(ranges: seq<Range>, holeBegin: int, holeEnd: int): seq<Filler> {
    if ranges == [] then []
    else
      var r := ranges[0];
      if r.end <= holeBegin then Fillers(ranges[1..], holeBegin, holeEnd)
      else if r.begin >= holeEnd then []
      else [FillerOf(r, holeBegin, holeEnd)] + Fillers(ranges[1..], holeBegin, holeEnd)
  }

  /** The same for every file that overlaps the hole. */
  function AllFillers(ranges: seq<Range>, holeBegin: int, holeEnd: int): seq<Filler> {
    if ranges == [] then []
    else (if Overlaps(ranges[0], holeBegin, holeEnd) then [FillerOf(ranges[0], holeBegin, holeEnd)] else [])
         + AllFillers(ranges[1..], holeBegin, holeEnd)
  }

  ghost predicate SortedByBegin(ranges: seq<Range>) {
    forall i, j :: 0 <= i < j < |ranges| ==> ranges[i].begin <= ranges[j].begin
  }

  lemma {:induction false} NothingOverlapsLater(ranges: seq<Range>, holeBegin: int, holeEnd: int)
    requires SortedByBegin(ranges) && (ranges == [] || ranges[0].begin >= holeEnd)
    ensures AllFillers(ranges, holeBegin, holeEnd) == []
  {
    if ranges != [] { NothingOverlapsLater(ranges[1..], holeBegin, holeEnd); }
  }

  /** For files sorted by their begin, ending the loop early loses nothing. */
  lemma {:induction false} BreakLosesNothing(ranges: seq<Range>, holeBegin: int, holeEnd: int)
    requires SortedByBegin(ranges)
    ensures Fillers(ranges, holeBegin, holeEnd) == AllFillers(ranges, holeBegin, holeEnd)
  {
    if ranges != [] {
      if ranges[0].end > holeBegin && ranges[0].begin >= holeEnd {
        NothingOverlapsLater(ranges, holeBegin, holeEnd);
      } else {
        BreakLosesNothing(ranges[1..], holeBegin, holeEnd);
      }
    }
  }

  /** Without the sorting it would. */
  lemma {:induction false} BreakNeedsSorting()
    ensures var late, early := Range(100, 200, "late"), Range(10, 20, "early");
            Fillers([late, early], 0, 50) == [] && AllFillers([late, early], 0, 50) != []
  {
    assert [Range(100, 200, "late"), Range(10, 20, "early")][1..] == [Range(10, 20, "early")];
  }

  // ---------- what a piece restores ----------

  function PieceBegin(f: Filler, r: Range): int {
    match f
    case Copy(_) => r.begin
    case Crop(_, startSec, _, _, _) => r.begin + startSec
  }

  function PieceEnd(f: Filler, r: Range): int {
    match f
    case Copy(_) => r.end
    case Crop(_, _, endSec, _, _) => r.begin + endSec
  }

  /** The whole file is sent when the portion lacks less than two seconds of it at either end; otherwise a piece is
      cut out. It holds its whole portion and overshoots it by less than two seconds at either
      end. */
  lemma {:induction false} PieceFits(r: Range, holeBegin: int, holeEnd: int)
    requires r.begin <= r.end && holeBegin <= holeEnd && Overlaps(r, holeBegin, holeEnd)
    ensures var f := FillerOf(r, holeBegin, holeEnd);
            var portionBegin, portionEnd :=
              if r.begin < holeBegin then holeBegin else r.begin, if r.end < holeEnd then r.end else holeEnd;
            && f.file == r.file
            && portionBegin - 2 < PieceBegin(f, r) <= portionBegin
            && portionEnd <= PieceEnd(f, r) < portionEnd + 2
            && r.begin <= PieceBegin(f, r) && PieceEnd(f, r) <= r.end
            && (f.Copy? <==> portionBegin - r.begin < 2 && r.end - portionEnd < 2)
            && (f.Crop? ==>
                  && f.outBegin == portionBegin && f.outEnd == portionEnd && PieceEnd(f, r) == portionEnd
                  && PieceBegin(f, r) == if portionBegin - r.begin < 2 then r.begin else portionBegin)
  {
  }

  /** The piece of local file `r` for this hole is among the fillers and brings back the second [t, t + 1). */
  predicate Restored(fillers: seq<Filler>, r: Range, hole: Span, t: int) {
    var f := FillerOf(r, hole.begin, hole.end);
    f in fillers && f.file == r.file && PieceBegin(f, r) <= t < PieceEnd(f, r)
  }

  ghost predicate Proper(ranges: seq<Range>) {
    forall i :: 0 <= i < |ranges| ==> ranges[i].begin <= ranges[i].end
  }

  lemma {:induction false} AllFillersHas(ranges: seq<Range>, holeBegin: int, holeEnd: int, k: nat)
    requires k < |ranges| && Overlaps(ranges[k], holeBegin, holeEnd)
    ensures FillerOf(ranges[k], holeBegin, holeEnd) in AllFillers(ranges, holeBegin, holeEnd)
  {
    if k > 0 { AllFillersHas(ranges[1..], holeBegin, holeEnd, k - 1); }
  }

  /** Every second of the hole that some local file holds is restored. */
  lemma {:induction false} HoleIsRestored(ranges: seq<Range>, holeBegin: int, holeEnd: int, k: nat, t: int)
    requires SortedByBegin(ranges) && Proper(ranges) && k < |ranges|
    requires holeBegin <= t < holeEnd && ranges[k].begin <= t < ranges[k].end
    ensures Restored(Fillers(ranges, holeBegin, holeEnd), ranges[k], Span(holeBegin, holeEnd), t)
  {
    BreakLosesNothing(ranges, holeBegin, holeEnd);
    AllFillersHas(ranges, holeBegin, holeEnd, k);
    PieceFits(ranges[k], holeBegin, holeEnd);
  }

  /** Nothing but files that overlap the hole is used. */
  lemma {:induction false} FillersComeFromOverlaps(ranges: seq<Range>, holeBegin: int, holeEnd: int, i: nat)
    returns (k: nat)
    requires i < |Fillers(ranges, holeBegin, holeEnd)|
    ensures k < |ranges| && Overlaps(ranges[k], holeBegin, holeEnd)
    ensures Fillers(ranges, holeBegin, holeEnd)[i] == FillerOf(ranges[k], holeBegin, holeEnd)
  {
    if ranges[0].end <= holeBegin {
      var j := FillersComeFromOverlaps(ranges[1..], holeBegin, holeEnd, i);
      k := j + 1;
    } else if i == 0 {
      k := 0;
    } else {
      var j := FillersComeFromOverlaps(ranges[1..], holeBegin, holeEnd, i - 1);
      k := j + 1;
    }
  }

  method FindHoleFiller(holeBegin: int, holeEnd: int, ranges: seq<Range>) returns (fillers: seq<Filler>)
    ensures fillers == Fillers(ranges, holeBegin, holeEnd)
  {
    fillers := [];
    var i := 0;
    while i < |ranges|
      invariant 0 <= i <= |ranges|
      invariant fillers + Fillers(ranges[i..], holeBegin, holeEnd) == Fillers(ranges, holeBegin, holeEnd)
    {
      var r := ranges[i];
      assert ranges[i..][1..] == ranges[i + 1..];
      i := i + 1;
      if r.end <= holeBegin {
        continue;
      }
      if r.begin >= holeEnd {
        return;
      }
      fillers := fillers + [GetFiller(r.file, r.begin, r.end, Max(r.begin, holeBegin), Min(r.end, holeEnd))];
    }
  }

  // ---------- the holes of the remote recording ----------

  /** The files whose names could be parsed. */
  function Parsed(files: seq<Option<Span>>): seq<Span> {
    if files == [] then []
    else Parsed(files[..|files| - 1]) + match files[|files| - 1] case None => [] case Some(s) => [s]
  }

  /** The intervals closed so far and the one being extended. */
  function Joined(spans: seq<Span>): seq<Span> {
    if spans == [] then []
    else
      var s, before := spans[|spans| - 1], Joined(spans[..|spans| - 1]);
      if before == [] || s.begin - before[|before| - 1].end > MAX_JOIN then before + [s]
      else before[..|before| - 1] + [Span(before[|before| - 1].begin, s.end)]
  }

  function HolesBetween(intervals: seq<Span>): seq<Span> {
    if |intervals| < 2 then []
    else HolesBetween(intervals[..|intervals| - 1])
         + [Span(intervals[|intervals| - 2].end, intervals[|intervals| - 1].begin)]
  }

  /** The gaps of more than five seconds between one file and the next. */
  function Gaps(spans: seq<Span>): seq<Span> {
    if |spans| < 2 then []
    else
      var a, b := spans[|spans| - 2], spans[|spans| - 1];
      Gaps(spans[..|spans| - 1]) + if b.begin - a.end > MAX_JOIN then [Span(a.end, b.begin)] else []
  }

  /** The holes are exactly the gaps of more than five seconds between consecutive files. */
  lemma {:induction false} HolesAreGaps(spans: seq<Span>)
    ensures HolesBetween(Joined(spans)) == Gaps(spans)
    ensures spans == [] <==> Joined(spans) == []
    ensures spans != [] ==> Joined(spans)[|Joined(spans)| - 1].end == spans[|spans| - 1].end
  {
    if spans != [] {
      var init, s := spans[..|spans| - 1], spans[|spans| - 1];
      HolesAreGaps(init);
      var before := Joined(init);
      if |spans| >= 2 {
        if s.begin - before[|before| - 1].end > MAX_JOIN {
          assert (before + [s])[..|before|] == before;
        } else {
          var joined := before[..|before| - 1] + [Span(before[|before| - 1].begin, s.end)];
          assert joined[..|joined| - 1] == before[..|before| - 1];
        }
      }
    }
  }

  lemma {:induction false} GapHas(spans: seq<Span>, k: nat)
    requires 0 < k < |spans| && EndsBeforeGap(spans, k)
    ensures Span(spans[k - 1].end, spans[k].begin) in Gaps(spans)
  {
    if k < |spans| - 1 { GapHas(spans[..|spans| - 1], k); }
  }

  lemma {:induction false} GapFrom(spans: seq<Span>, gap: Span) returns (k: nat)
    requires gap in Gaps(spans)
    ensures 0 < k < |spans| && EndsBeforeGap(spans, k)
    ensures gap == Span(spans[k - 1].end, spans[k].begin)
  {
    var init := spans[..|spans| - 1];
    if gap in Gaps(init) {
      k := GapFrom(init, gap);
    } else {
      k := |spans| - 1;
    }
  }

  ghost predicate Chronological(spans: seq<Span>) {
    && (forall i :: 0 <= i < |spans| ==> spans[i].begin <= spans[i].end)
    && (forall i, j :: 0 <= i < j < |spans| ==> spans[i].begin <= spans[j].begin)
  }

  ghost predicate Recorded(spans: seq<Span>, t: int) {
    exists i :: 0 <= i < |spans| && spans[i].begin <= t < spans[i].end
  }

  /** `t` lies in a time of more than five seconds, after one file and before another, that no file holds. */
  ghost predicate InRemoteGap(spans: seq<Span>, t: int) {
    exists lo, hi {:trigger IsRemoteGap(spans, lo, hi)} :: lo <= t < hi && IsRemoteGap(spans, lo, hi)
  }

  ghost predicate IsRemoteGap(spans: seq<Span>, lo: int, hi: int) {
    && hi - lo > 5
    && (forall x :: lo <= x < hi ==> !Recorded(spans, x))
    && (forall i :: 0 <= i < |spans| ==> spans[i].begin <= lo || spans[i].begin >= hi)
    && (exists i :: 0 <= i < |spans| && spans[i].begin <= lo)
    && (exists i :: 0 <= i < |spans| && spans[i].begin >= hi)
  }

  lemma {:induction false} FirstAtOrAfter(spans: seq<Span>, hi: int, j: nat) returns (k: nat)
    requires Chronological(spans) && j < |spans| && spans[j].begin >= hi
    ensures k <= j && spans[k].begin >= hi && (k > 0 ==> spans[k - 1].begin < hi)
  {
    if j > 0 && spans[j - 1].begin >= hi {
      k := FirstAtOrAfter(spans, hi, j - 1);
    } else {
      k := j;
    }
  }

  /** Every such instant is inside a hole, nested files or not. */
  lemma {:induction false} RemoteGapIsHole(spans: seq<Span>, t: int) returns (hole: Span)
    requires Chronological(spans) && InRemoteGap(spans, t)
    ensures hole in HolesBetween(Joined(spans)) && hole.begin <= t < hole.end
  {
    var lo, hi :| lo <= t < hi && IsRemoteGap(spans, lo, hi);
    var i :| 0 <= i < |spans| && spans[i].begin <= lo;
    var j :| 0 <= j < |spans| && spans[j].begin >= hi;
    var k := FirstAtOrAfter(spans, hi, j);
    assert !Recorded(spans, lo);
    assert spans[k - 1].end <= lo;
    GapHas(spans, k);
    HolesAreGaps(spans);
    hole := Span(spans[k - 1].end, spans[k].begin);
  }

  /** No file reaches past the one that comes before a gap of more than five seconds. */
  ghost predicate NotNested(spans: seq<Span>) {
    forall i, k :: !Nested(spans, i, k)
  }

  /** File `i` reaches past the one before file `k`, which a gap precedes. */
  predicate Nested(spans: seq<Span>, i: int, k: int) {
    0 <= i < k < |spans| && EndsBeforeGap(spans, k) && spans[i].end > spans[k - 1].end
  }

  predicate EndsBeforeGap(spans: seq<Span>, k: nat)
    requires 0 < k < |spans|
  {
    spans[k].begin - spans[k - 1].end > 5
  }

  /** No second of any hole is recorded. */
  ghost predicate HolesAreUnrecorded(spans: seq<Span>) {
    forall hole, t :: hole in Gaps(spans) && hole.begin <= t < hole.end ==> !Recorded(spans, t)
  }

  lemma {:induction false} UnrecordedAt(spans: seq<Span>, k: nat, t: int)
    requires Chronological(spans) && NotNested(spans)
    requires 0 < k < |spans| && EndsBeforeGap(spans, k) && spans[k - 1].end <= t < spans[k].begin
    ensures !Recorded(spans, t)
  {
    forall i | 0 <= i < |spans| ensures !(spans[i].begin <= t < spans[i].end) {
      if i < k {
        assert !Nested(spans, i, k);
      } else if i > k {
        assert spans[k].begin <= spans[i].begin;
      }
    }
  }

  lemma {:induction false} RecordedInGap(spans: seq<Span>, i: nat, k: nat)
    requires Chronological(spans)
    requires i < k < |spans| && EndsBeforeGap(spans, k) && spans[i].end > spans[k - 1].end
    ensures !HolesAreUnrecorded(spans)
  {
    GapHas(spans, k);
    var hole := Span(spans[k - 1].end, spans[k].begin);
    assert spans[i].begin <= spans[k - 1].begin;
    assert Recorded(spans, hole.begin);
    assert hole in Gaps(spans);
  }

  lemma {:induction false} HolesOfNotNested(spans: seq<Span>)
    requires Chronological(spans) && NotNested(spans)
    ensures HolesAreUnrecorded(spans)
  {
    forall hole, t | hole in Gaps(spans) && hole.begin <= t < hole.end ensures !Recorded(spans, t) {
      var k := GapFrom(spans, hole);
      UnrecordedAt(spans, k, t);
    }
  }

  lemma {:induction false} HolesOfNested(spans: seq<Span>)
    requires Chronological(spans) && !NotNested(spans)
    ensures !HolesAreUnrecorded(spans)
  {
    var i, k :| Nested(spans, i, k);
    RecordedInGap(spans, i, k);
  }

  /** The holes hold no recorded second exactly when no file is nested in an earlier, longer one just
      before a gap. */
  lemma {:induction false} HolesAreUnrecordedExactly(spans: seq<Span>)
    requires Chronological(spans)
    ensures HolesBetween(Joined(spans)) == Gaps(spans)
    ensures HolesAreUnrecorded(spans) <==> NotNested(spans)
  {
    HolesAreGaps(spans);
    if NotNested(spans) {
      HolesOfNotNested(spans);
    } else {
      HolesOfNested(spans);
    }
  }

  lemma {:induction false} RecordedHole(spans: seq<Span>, i: nat, k: nat, t: int)
    requires Chronological(spans) && i < k < |spans| && EndsBeforeGap(spans, k)
    requires spans[i].end > spans[k - 1].end && spans[i].begin <= t < spans[i].end
    ensures !NotNested(spans) && Recorded(spans, t)
    ensures Span(spans[k - 1].end, spans[k].begin) in HolesBetween(Joined(spans))
  {
    GapHas(spans, k);
    HolesAreGaps(spans);
    assert Nested(spans, i, k);
  }

  /** It happens: a long file, a short one inside it, and one after a gap. */
  lemma {:induction false} NestedFileIsHole() returns (spans: seq<Span>)
    ensures spans == [Span(0, 100), Span(10, 20), Span(50, 60)]
    ensures Chronological(spans) && !NotNested(spans)
    ensures Span(20, 50) in HolesBetween(Joined(spans)) && Recorded(spans, 30)
  {
    spans := [Span(0, 100), Span(10, 20), Span(50, 60)];
    RecordedHole(spans, 0, 2, 30);
  }

  lemma {:induction false} ParsedStep(files: seq<Option<Span>>, i: nat)
    requires i < |files|
    ensures Parsed(files[..i + 1]) == Parsed(files[..i]) + match files[i] case None => [] case Some(s) => [s]
  {
    assert files[..i + 1][..i] == files[..i];
  }

  lemma {:induction false} JoinedStep(spans: seq<Span>, closed: seq<Span>, last: Span, s: Span)
    requires Joined(spans) == closed + [last]
    ensures Joined(spans + [s])
            == if s.begin - last.end > MAX_JOIN then closed + [last] + [s] else closed + [Span(last.begin, s.end)]
  {
    assert (spans + [s])[..|spans|] == spans;
    assert (closed + [last])[..|closed|] == closed;
  }

  method GetRanges(files: seq<Option<Span>>) returns (intervals: seq<Span>)
    ensures intervals == Joined(Parsed(files))
  {
    intervals := [];
    var last: Option<Span> := None;
    for i := 0 to |files|
      invariant match last
                case None => intervals == [] && Parsed(files[..i]) == []
                case Some(s) => Joined(Parsed(files[..i])) == intervals + [s]
    {
      ParsedStep(files, i);
      if files[i].Some? {
        var s := files[i].value;
        if last.Some? {
          JoinedStep(Parsed(files[..i]), intervals, last.value, s);
        }
        if last.None? {
          assert Parsed(files[..i + 1]) == [s];
          last := Some(s);
        } else if s.begin - last.value.end > MAX_JOIN {
          intervals := intervals + [last.value];
          last := Some(s);
        } else {
          last := Some(Span(last.value.begin, s.end));
        }
      } else {
        assert Parsed(files[..i + 1]) == Parsed(files[..i]);
      }
    }
    assert files[..|files|] == files;
    if last.Some? {
      intervals := intervals + [last.value];
    }
  }

  method GetHoles(ranges: seq<Span>) returns (holes: seq<Span>)
    ensures holes == HolesBetween(ranges)
  {
    holes := [];
    var lastEnd: Option<int> := None;
    for i := 0 to |ranges|
      invariant holes == HolesBetween(ranges[..i])
      invariant lastEnd == if i == 0 then None else Some(ranges[i - 1].end)
    {
      assert ranges[..i + 1][..i] == ranges[..i];
      if lastEnd.Some? {
        holes := holes + [Span(lastEnd.value, ranges[i].begin)];
      }
      lastEnd := Some(ranges[i].end);
    }
    assert ranges[..|ranges|] == ranges;
  }

  /** A hole ends before the next one begins, so none is there twice. */
  lemma {:induction false} HolesAscend(spans: seq<Span>)
    requires Chronological(spans)
    ensures var holes := HolesBetween(Joined(spans));
            && (forall i :: 0 <= i < |holes| ==> holes[i].end - holes[i].begin > 5)
            && (forall i :: 0 < i < |holes| ==> holes[i - 1].end <= holes[i].begin)
            && (holes != [] ==> holes[|holes| - 1].end <= spans[|spans| - 1].begin)
  {
    HolesAreGaps(spans);
    if |spans| >= 2 {
      var init := spans[..|spans| - 1];
      HolesAreGaps(init);
      HolesAscend(init);
    }
  }

  // ---------- the whole script ----------

  function FillersFor(holes: seq<Span>, local: seq<Range>): seq<Filler> {
    if holes == [] then []
    else FillersFor(holes[..|holes| - 1], local) + Fillers(local, holes[|holes| - 1].begin, holes[|holes| - 1].end)
  }

  lemma {:induction false} FillersForHas(holes: seq<Span>, local: seq<Range>, hole: Span, f: Filler)
    requires hole in holes && f in Fillers(local, hole.begin, hole.end)
    ensures f in FillersFor(holes, local)
  {
    if hole != holes[|holes| - 1] {
      FillersForHas(holes[..|holes| - 1], local, hole, f);
    }
  }

  /** Hole `h` and local file `k`. */
  datatype Source = Source(h: nat, k: nat)

  predicate Earlier(a: Source, b: Source) {
    a.h < b.h || (a.h == b.h && a.k < b.k)
  }

  /** Hole and file overlap. */
  predicate Meets(holes: seq<Span>, local: seq<Range>, s: Source) {
    s.h < |holes| && s.k < |local| && Overlaps(local[s.k], holes[s.h].begin, holes[s.h].end)
  }

  /** Hole by hole and file by file, the pairs from which the pieces are made, each once. */
  ghost predicate AreSources(sources: seq<Source>, holes: seq<Span>, local: seq<Range>, pieces: seq<Filler>) {
    && |sources| == |pieces|
    && (forall i, j :: 0 <= i < j < |sources| ==> Earlier(sources[i], sources[j]))
    && (forall s :: s in sources <==> Meets(holes, local, s))
    && (forall i :: 0 <= i < |sources| && Meets(holes, local, sources[i]) ==>
          pieces[i] == FillerOf(local[sources[i].k], holes[sources[i].h].begin, holes[sources[i].h].end))
  }

  /** The sources of the pieces of one hole: the files from `n` on that overlap it, in order. */
  ghost predicate OfHole(sources: seq<Source>, local: seq<Range>, h: nat, hole: Span, n: nat, pieces: seq<Filler>) {
    && |sources| == |pieces|
    && (forall i, j :: 0 <= i < j < |sources| ==> Earlier(sources[i], sources[j]))
    && (forall s :: s in sources <==> s.h == h && n <= s.k < |local| && Overlaps(local[s.k], hole.begin, hole.end))
    && (forall i :: 0 <= i < |sources| && sources[i].k < |local| ==>
          pieces[i] == FillerOf(local[sources[i].k], hole.begin, hole.end))
  }

  lemma {:induction false} FileOverlaps(sources: seq<Source>, local: seq<Range>, h: nat, hole: Span, n: nat,
                                        pieces: seq<Filler>)
    requires n < |local| && OfHole(sources, local, h, hole, n + 1, pieces)
    requires Overlaps(local[n], hole.begin, hole.end)
    ensures OfHole([Source(h, n)] + sources, local, h, hole, n, [FillerOf(local[n], hole.begin, hole.end)] + pieces)
  {
    var all := [Source(h, n)] + sources;
    forall s ensures s in all <==> s.h == h && n <= s.k < |local| && Overlaps(local[s.k], hole.begin, hole.end) {
      assert s in all <==> s == Source(h, n) || s in sources;
    }
    forall i, j | 0 <= i < j < |all| ensures Earlier(all[i], all[j]) {
      assert sources[j - 1] in sources;
    }
  }

  lemma {:induction false} FileMisses(sources: seq<Source>, local: seq<Range>, h: nat, hole: Span, n: nat,
                                      pieces: seq<Filler>)
    requires n < |local| && OfHole(sources, local, h, hole, n + 1, pieces)
    requires !Overlaps(local[n], hole.begin, hole.end)
    ensures OfHole(sources, local, h, hole, n, pieces)
  {
  }

  lemma {:induction false} SourcesOfHole(local: seq<Range>, h: nat, hole: Span, n: nat) returns (sources: seq<Source>)
    requires n <= |local|
    ensures OfHole(sources, local, h, hole, n, AllFillers(local[n..], hole.begin, hole.end))
    decreases |local| - n
  {
    sources := [];
    if n < |local| {
      var pieces := AllFillers(local[n + 1..], hole.begin, hole.end);
      assert local[n..][1..] == local[n + 1..] && local[n..][0] == local[n];
      sources := SourcesOfHole(local, h, hole, n + 1);
      if Overlaps(local[n], hole.begin, hole.end) {
        FileOverlaps(sources, local, h, hole, n, pieces);
        sources := [Source(h, n)] + sources;
      } else {
        FileMisses(sources, local, h, hole, n, pieces);
        assert [] + pieces == pieces;
      }
    }
  }

  lemma {:induction false} MoreSources(holes: seq<Span>, local: seq<Range>, before: seq<Source>, pieces: seq<Filler>,
                                       last: seq<Source>, more: seq<Filler>)
    requires holes != [] && AreSources(before, holes[..|holes| - 1], local, pieces)
    requires OfHole(last, local, |holes| - 1, holes[|holes| - 1], 0, more)
    ensures AreSources(before + last, holes, local, pieces + more)
  {
    var all, init := before + last, holes[..|holes| - 1];
    forall s ensures s in all <==> Meets(holes, local, s) {
      assert s in before <==> Meets(init, local, s);
    }
    forall i, j | 0 <= i < j < |all| ensures Earlier(all[i], all[j]) {
      if i < |before| { assert before[i] in before; }
      if j >= |before| { assert last[j - |before|] in last; }
    }
    forall i | 0 <= i < |all| && Meets(holes, local, all[i])
      ensures (pieces + more)[i] == FillerOf(local[all[i].k], holes[all[i].h].begin, holes[all[i].h].end)
    {
      if i < |before| {
        assert before[i] in before;
      } else {
        assert last[i - |before|] in last;
      }
    }
  }

  /** Every local file gives one piece for each hole that it overlaps, and there is no other piece. */
  lemma {:induction false} PiecesAreThePairs(holes: seq<Span>, local: seq<Range>) returns (sources: seq<Source>)
    requires SortedByBegin(local)
    ensures AreSources(sources, holes, local, FillersFor(holes, local))
  {
    if holes == [] {
      sources := [];
    } else {
      var last := holes[|holes| - 1];
      var before := PiecesAreThePairs(holes[..|holes| - 1], local);
      var more := SourcesOfHole(local, |holes| - 1, last, 0);
      assert local[0..] == local;
      BreakLosesNothing(local, last.begin, last.end);
      sources := before + more;
      MoreSources(holes, local, before, FillersFor(holes[..|holes| - 1], local), more,
                  Fillers(local, last.begin, last.end));
    }
  }

  /** The pieces to send, for the parsed names of the remote files and the sorted local files. */
  method FillUp(remote: seq<Option<Span>>, local: seq<Range>) returns (fillers: seq<Filler>)
    ensures fillers == FillersFor(HolesBetween(Joined(Parsed(remote))), local)
  {
    var ranges := GetRanges(remote);
    var holes := GetHoles(ranges);
    fillers := [];
    for i := 0 to |holes|
      invariant fillers == FillersFor(holes[..i], local)
    {
      assert holes[..i + 1][..i] == holes[..i];
      var more := FindHoleFiller(holes[i].begin, holes[i].end, local);
      fillers := fillers + more;
    }
    assert holes[..|holes|] == holes;
  }

  /** Every second of a remote gap of more than five seconds that some local file holds is restored. */
  lemma {:induction false} RemoteGapsAreRestored(remote: seq<Option<Span>>, local: seq<Range>, t: int, k: nat)
    requires Chronological(Parsed(remote)) && SortedByBegin(local) && Proper(local)
    requires InRemoteGap(Parsed(remote), t)
    requires k < |local| && local[k].begin <= t < local[k].end
    ensures var holes := HolesBetween(Joined(Parsed(remote)));
            exists hole ::
              hole in holes && hole.begin <= t < hole.end && Restored(FillersFor(holes, local), local[k], hole, t)
  {
    var holes := HolesBetween(Joined(Parsed(remote)));
    var hole := RemoteGapIsHole(Parsed(remote), t);
    HoleIsRestored(local, hole.begin, hole.end, k, t);
    FillersForHas(holes, local, hole, FillerOf(local[k], hole.begin, hole.end));
  }
}
