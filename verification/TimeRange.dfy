/**
 Playing a time range out of files on disk: which part of which file is played at which offset,
 seeking in the result, and going on when new files have appeared.
 */
module TimeRange {
  import opened Options

  /** A media file, named after the interval [begin, end) it holds. */
  datatype MediaFile = MediaFile(name: string, begin: int, end: int)

  /** A file to play: its tags are shifted by `offset` and last for `duration`. */
  datatype Segment = Segment(media: string, offset: int, duration: int)

  ghost predicate Sorted(files: seq<MediaFile>) {
    && (forall i :: 0 <= i < |files| ==> files[i].begin <= files[i].end)
    && (forall i, j :: 0 <= i < j < |files| ==> files[i].end <= files[j].begin)
  }

  /** The first file that ends after `start`, or the number of files. */
  function FirstEndingAfter(files: seq<MediaFile>, i: nat, start: int): (k: nat)
    requires i <= |files|
    ensures i <= k <= |files|
    decreases |files| - i
  {
    if i < |files| && files[i].end <= start then FirstEndingAfter(files, i + 1, start) else i
  }

  lemma {:induction false} FirstEndingAfterSpec(files: seq<MediaFile>, i: nat, start: int)
    requires i <= |files|
    ensures var k := FirstEndingAfter(files, i, start);
            (forall j :: i <= j < k ==> files[j].end <= start) && (k < |files| ==> files[k].end > start)
    decreases |files| - i
  {
    if i < |files| && files[i].end <= start { FirstEndingAfterSpec(files, i + 1, start); }
  }

  // ---------- the files of a range ----------

  function FirstSegment(f: MediaFile, start: int, end: int): Segment {
    Segment(f.name, 0, if end < f.end then end - start else f.end - start)
  }

  /** The segments of the files from `i` on, none of which is the first. */
  function Rest(files: seq<MediaFile>, i: nat, start: int, end: int): seq<Segment>
    decreases |files| - i
  {
    if i >= |files| then []
    else
      var f := files[i];
      if f.end < end then [Segment(f.name, f.begin - start, f.end - f.begin)] + Rest(files, i + 1, start, end)
      else if end < f.begin then []
      else [Segment(f.name, f.begin - start, end - f.begin)]
  }

  /** How much of the last file is played, -1 for all of it. */
  function RestLimit(files: seq<MediaFile>, i: nat, start: int, end: int): int
    decreases |files| - i
  {
    if i >= |files| then -1
    else if files[i].end < end then RestLimit(files, i + 1, start, end)
    else if end < files[i].begin then -1
    else end - files[i].begin
  }

  datatype Playlist = Playlist(segments: seq<Segment>, firstOrigin: int, lastLimit: int)

  /** None when the files of the request are left as they are. */
  function RangeFiles(files: seq<MediaFile>, start: int, end: int): Option<Playlist> {
    var i := FirstEndingAfter(files, 0, start);
    if i == |files| || end < files[i].begin then None
    else
      var first := FirstSegment(files[i], start, end);
      var origin := if start > files[i].begin then start - files[i].begin else 0;
      if end < files[i].end then Some(Playlist([first], origin, first.duration))
      else Some(Playlist([first] + Rest(files, i + 1, start, end), origin, RestLimit(files, i + 1, start, end)))
  }

  function SegmentsOf(files: seq<MediaFile>, start: int, end: int): Option<seq<Segment>> {
    match RangeFiles(files, start, end)
    case None => None
    case Some(p) => Some(p.segments)
  }

  // ---------- coverage ----------

  predicate Contains(s: Segment, t: int) {
    s.offset <= t < s.offset + s.duration
  }

  ghost predicate Covered(segments: seq<Segment>, t: int) {
    exists k :: 0 <= k < |segments| && Contains(segments[k], t)
  }

  /** Some file from `i` on holds the instant `x`. */
  ghost predicate Held(files: seq<MediaFile>, i: nat, x: int) {
    exists j :: i <= j < |files| && files[j].begin <= x < files[j].end
  }

  /** Segments in order, without overlap, starting at or after `from`. */
  ghost predicate Ascending(segments: seq<Segment>, from: int) {
    segments == [] ||
    (segments[0].offset >= from && segments[0].duration >= 0
     && Ascending(segments[1..], segments[0].offset + segments[0].duration))
  }

  lemma {:induction false} CoveredCons(s: Segment, rest: seq<Segment>, t: int)
    ensures Covered([s] + rest, t) <==> Contains(s, t) || Covered(rest, t)
  {
    var all := [s] + rest;
    if Contains(s, t) { assert Contains(all[0], t); }
    if k :| 0 <= k < |rest| && Contains(rest[k], t) { assert Contains(all[k + 1], t); }
    if k :| 0 <= k < |all| && Contains(all[k], t) && k > 0 { assert Contains(rest[k - 1], t); }
  }

  lemma {:induction false} RestCovers(files: seq<MediaFile>, i: nat, start: int, end: int, t: int)
    requires Sorted(files) && i <= |files|
    requires i < |files| ==> start <= files[i].begin
    ensures Covered(Rest(files, i, start, end), t) <==> 0 <= t < end - start && Held(files, i, start + t)
    decreases |files| - i
  {
    if i < |files| {
      var f := files[i];
      if f.end < end {
        RestCovers(files, i + 1, start, end, t);
        CoveredCons(Segment(f.name, f.begin - start, f.end - f.begin), Rest(files, i + 1, start, end), t);
        assert Held(files, i, start + t) <==> f.begin <= start + t < f.end || Held(files, i + 1, start + t);
      } else if end >= f.begin {
        CoveredCons(Segment(f.name, f.begin - start, end - f.begin), [], t);
        if 0 <= t < end - start && f.begin <= start + t { assert Held(files, i, start + t); }
      }
    }
  }

  lemma {:induction false} RestAscends(files: seq<MediaFile>, i: nat, start: int, end: int, from: int)
    requires Sorted(files) && i <= |files|
    requires i < |files| ==> from <= files[i].begin - start
    ensures Ascending(Rest(files, i, start, end), from)
    decreases |files| - i
  {
    if i < |files| && files[i].end < end {
      var s := Segment(files[i].name, files[i].begin - start, files[i].end - files[i].begin);
      RestAscends(files, i + 1, start, end, s.offset + s.duration);
      assert ([s] + Rest(files, i + 1, start, end))[1..] == Rest(files, i + 1, start, end);
    }
  }

  /** The instants to be played: those of the range that files hold, and the gap before the first file. */
  ghost predicate ToBePlayed(files: seq<MediaFile>, start: int, end: int, t: int) {
    var i := FirstEndingAfter(files, 0, start);
    && 0 <= t < end - start
    && (Held(files, 0, start + t) || (i < |files| && start + t < files[i].begin))
  }

  lemma {:induction false} HeldFromFirst(files: seq<MediaFile>, start: int, x: int)
    requires x >= start
    ensures Held(files, 0, x) <==> Held(files, FirstEndingAfter(files, 0, start), x)
  {
    FirstEndingAfterSpec(files, 0, start);
  }

  /** The segments ascend from offset 0 without overlap and cover exactly what is to be played. */
  lemma {:induction false} RangeCoverage(files: seq<MediaFile>, start: int, end: int)
    requires Sorted(files) && start <= end && RangeFiles(files, start, end).Some?
    ensures var segments := RangeFiles(files, start, end).value.segments;
            && segments != [] && segments[0].offset == 0
            && Ascending(segments, 0)
            && forall t :: Covered(segments, t) <==> ToBePlayed(files, start, end, t)
  {
    var i := FirstEndingAfter(files, 0, start);
    FirstEndingAfterSpec(files, 0, start);
    var first := FirstSegment(files[i], start, end);
    var rest := if end < files[i].end then [] else Rest(files, i + 1, start, end);
    var segments := [first] + rest;
    assert RangeFiles(files, start, end).value.segments == segments;
    assert segments[1..] == rest;
    RestAscends(files, i + 1, start, end, first.duration);
    forall t ensures Covered(segments, t) <==> ToBePlayed(files, start, end, t) {
      CoveredCons(first, rest, t);
      RestCovers(files, i + 1, start, end, t);
      if 0 <= t {
        HeldFromFirst(files, start, start + t);
        assert Held(files, i, start + t)
               <==> files[i].begin <= start + t < files[i].end || Held(files, i + 1, start + t);
      }
    }
  }

  /** When nothing is set, no file holds any instant of the range. */
  lemma {:induction false} NothingToPlay(files: seq<MediaFile>, start: int, end: int, x: int)
    requires Sorted(files) && RangeFiles(files, start, end).None? && start <= x < end
    ensures !Held(files, 0, x)
  {
    FirstEndingAfterSpec(files, 0, start);
  }

  /** The code does not ask for start <= end; its durations are right exactly then. */
  lemma {:induction false} NegativeDurationExactly(files: seq<MediaFile>, start: int, end: int)
    requires Sorted(files) && RangeFiles(files, start, end).Some?
    ensures (forall k :: 0 <= k < |RangeFiles(files, start, end).value.segments| ==>
               RangeFiles(files, start, end).value.segments[k].duration >= 0)
            <==> start <= end
  {
    FirstEndingAfterSpec(files, 0, start);
    var segments := RangeFiles(files, start, end).value.segments;
    if start <= end {
      RangeCoverage(files, start, end);
      forall k | 0 <= k < |segments| ensures segments[k].duration >= 0 {
        AscendingAt(segments, 0, k);
      }
    } else {
      assert segments[0].duration < 0;
    }
  }

  lemma {:induction false} AscendingAt(segments: seq<Segment>, from: int, k: nat)
    requires Ascending(segments, from) && k < |segments|
    ensures segments[k].duration >= 0 && segments[k].offset >= from
    ensures forall j :: k < j < |segments| ==> segments[k].offset + segments[k].duration <= segments[j].offset
  {
    var next := segments[0].offset + segments[0].duration;
    if k == 0 {
      forall j | 0 < j < |segments| ensures next <= segments[j].offset {
        AscendingAt(segments[1..], next, j - 1);
      }
    } else {
      AscendingAt(segments[1..], next, k - 1);
      forall j | k < j < |segments| ensures segments[k].offset + segments[k].duration <= segments[j].offset {
        assert segments[j] == segments[1..][j - 1];
      }
    }
  }

  // ---------- the duration ----------

  function Duration(segments: seq<Segment>): int {
    if segments == [] then 0 else Duration(segments[..|segments| - 1]) + segments[|segments| - 1].duration
  }

  function Interval(lo: int, hi: int): (s: set<int>)
    ensures forall t :: t in s <==> lo <= t < hi
    ensures lo <= hi ==> |s| == hi - lo
    decreases hi - lo
  {
    if lo >= hi then {} else Interval(lo, hi - 1) + {hi - 1}
  }

  function Instants(segments: seq<Segment>): set<int> {
    if segments == [] then {}
    else
      var last := segments[|segments| - 1];
      Instants(segments[..|segments| - 1]) + Interval(last.offset, last.offset + last.duration)
  }

  lemma {:induction false} InstantsAreCovered(segments: seq<Segment>, t: int)
    ensures t in Instants(segments) <==> Covered(segments, t)
  {
    if segments != [] {
      var init := segments[..|segments| - 1];
      InstantsAreCovered(init, t);
      if k :| 0 <= k < |init| && Contains(init[k], t) {
        assert Contains(segments[k], t);
      }
      if k :| 0 <= k < |segments| && Contains(segments[k], t) {
        if k < |segments| - 1 { assert Contains(init[k], t); }
      }
      if Contains(segments[|segments| - 1], t) {
        assert Covered(segments, t);
      }
    }
  }

  lemma {:induction false} AscendingInit(segments: seq<Segment>, from: int)
    requires Ascending(segments, from) && segments != []
    ensures Ascending(segments[..|segments| - 1], from)
  {
    if |segments| > 1 {
      AscendingInit(segments[1..], segments[0].offset + segments[0].duration);
      assert segments[1..][..|segments| - 2] == segments[..|segments| - 1][1..];
    }
  }

  lemma {:induction false} DurationIsSize(segments: seq<Segment>, from: int)
    requires Ascending(segments, from)
    ensures |Instants(segments)| == Duration(segments)
  {
    if segments != [] {
      var init, last := segments[..|segments| - 1], segments[|segments| - 1];
      AscendingInit(segments, from);
      DurationIsSize(init, from);
      AscendingAt(segments, from, |segments| - 1);
      forall t | t in Instants(init) ensures t !in Interval(last.offset, last.offset + last.duration) {
        InstantsAreCovered(init, t);
        var k :| 0 <= k < |init| && Contains(init[k], t);
        AscendingAt(segments, from, k);
        assert segments[k] == init[k];
      }
    }
  }

  /** DurationMs is the number of milliseconds to be played. */
  lemma {:induction false} DurationIsMeasure(files: seq<MediaFile>, start: int, end: int)
    requires Sorted(files) && start <= end && RangeFiles(files, start, end).Some?
    ensures Duration(RangeFiles(files, start, end).value.segments)
            == |set t | 0 <= t < end - start && ToBePlayed(files, start, end, t)|
  {
    var segments := RangeFiles(files, start, end).value.segments;
    RangeCoverage(files, start, end);
    DurationIsSize(segments, 0);
    forall t ensures t in Instants(segments) <==> ToBePlayed(files, start, end, t) {
      InstantsAreCovered(segments, t);
    }
    assert Instants(segments) == set t | 0 <= t < end - start && ToBePlayed(files, start, end, t);
  }

  // ---------- refresh ----------

  lemma {:induction false} RestExtends(files: seq<MediaFile>, more: seq<MediaFile>, i: nat, start: int, end: int)
    requires i <= |files|
    ensures Rest(files, i, start, end) <= Rest(files + more, i, start, end)
    decreases |files| - i
  {
    if i < |files| && files[i].end < end { RestExtends(files, more, i + 1, start, end); }
  }

  lemma {:induction false} FirstUnchanged(files: seq<MediaFile>, more: seq<MediaFile>, i: nat, start: int)
    requires FirstEndingAfter(files, 0, start) < |files| && i <= FirstEndingAfter(files, 0, start)
    requires forall j :: 0 <= j < i ==> files[j].end <= start
    ensures FirstEndingAfter(files + more, i, start) == FirstEndingAfter(files, 0, start)
    decreases FirstEndingAfter(files, 0, start) - i
  {
    FirstEndingAfterSpec(files, 0, start);
    if i < FirstEndingAfter(files, 0, start) { FirstUnchanged(files, more, i + 1, start); }
  }

  /** New files behind the old ones only add segments behind the old ones, so the index of the
      current file stays right. */
  lemma {:induction false} RefreshExtends(files: seq<MediaFile>, more: seq<MediaFile>, start: int, end: int)
    requires RangeFiles(files, start, end).Some?
    ensures RangeFiles(files + more, start, end).Some?
    ensures RangeFiles(files, start, end).value.segments <= RangeFiles(files + more, start, end).value.segments
    ensures RangeFiles(files, start, end).value.firstOrigin == RangeFiles(files + more, start, end).value.firstOrigin
  {
    FirstUnchanged(files, more, 0, start);
    RestExtends(files, more, FirstEndingAfter(files, 0, start) + 1, start, end);
  }

  // ---------- seeking ----------

  /** The segment the seek loop stops at. */
  function SegmentAt(segments: seq<Segment>, i: nat, pos: int): (k: nat)
    requires i <= |segments|
    ensures i <= k <= |segments|
    decreases |segments| - i
  {
    if i < |segments| && !Contains(segments[i], pos) then SegmentAt(segments, i + 1, pos) else i
  }

  /** The sum of the gaps between consecutive segments up to segment `k`. */
  function GapBefore(segments: seq<Segment>, k: nat): int
    requires k < |segments|
  {
    if k == 0 then 0
    else GapBefore(segments, k - 1) + segments[k].offset - (segments[k - 1].offset + segments[k - 1].duration)
  }

  lemma {:induction false} GapIsDifference(segments: seq<Segment>, k: nat)
    requires k < |segments| && segments[0].offset == 0
    ensures segments[k].offset - Duration(segments[..k]) == GapBefore(segments, k)
  {
    if k > 0 {
      GapIsDifference(segments, k - 1);
      assert segments[..k][..k - 1] == segments[..k - 1];
    }
  }

  lemma {:induction false} GapNonNegative(segments: seq<Segment>, k: nat)
    requires k < |segments| && Ascending(segments, 0)
    ensures GapBefore(segments, k) >= 0
  {
    if k > 0 {
      GapNonNegative(segments, k - 1);
      AscendingAt(segments, 0, k - 1);
    }
  }

  /** Seeking selects the one segment that holds the position, and the local position it asks for lies
      beyond the position from the segment's offset by the gaps between the segments skipped. */
  lemma {:induction false} SeekPosition(segments: seq<Segment>, pos: int)
    requires Ascending(segments, 0) && segments != [] && segments[0].offset == 0
    ensures var k := SegmentAt(segments, 0, pos);
            && (k == |segments| <==> !Covered(segments, pos))
            && (k < |segments| ==>
                  && Contains(segments[k], pos)
                  && (forall j :: 0 <= j < |segments| && Contains(segments[j], pos) ==> j == k)
                  && (pos - Duration(segments[..k])) + segments[k].offset == pos + GapBefore(segments, k)
                  && GapBefore(segments, k) >= 0)
  {
    var k := SegmentAt(segments, 0, pos);
    SegmentAtSpec(segments, 0, pos);
    if k < |segments| {
      forall j | 0 <= j < |segments| && Contains(segments[j], pos) ensures j == k {
        AscendingAt(segments, 0, k);
      }
      GapIsDifference(segments, k);
      GapNonNegative(segments, k);
    }
  }

  /** A gap between two files: a seek behind it is answered a gap too late. */
  lemma {:induction false} SeekSkipsGap()
    ensures var files := [MediaFile("a", 0, 10), MediaFile("b", 15, 30)];
            && Sorted(files) && RangeFiles(files, 0, 30).Some?
            && var segments := RangeFiles(files, 0, 30).value.segments;
               && segments == [Segment("a", 0, 10), Segment("b", 15, 15)]
               && SegmentAt(segments, 0, 20) == 1 && GapBefore(segments, 1) == 5
               && (20 - Duration(segments[..1])) + segments[1].offset == 25
  {
    var files := [MediaFile("a", 0, 10), MediaFile("b", 15, 30)];
    assert FirstEndingAfter(files, 0, 0) == 0;
    assert Rest(files, 2, 0, 30) == [];
    assert Rest(files, 1, 0, 30) == [Segment("b", 15, 15)];
    var segments := [Segment("a", 0, 10), Segment("b", 15, 15)];
    assert segments[..1] == [Segment("a", 0, 10)];
    assert segments[..1][..0] == [];
    assert Duration(segments[..1]) == 10;
    assert SegmentAt(segments, 1, 20) == 1;
  }

  /** The instant at which a file holds what is `local` milliseconds after the origin it is played from. */
  function InstantAt(f: MediaFile, origin: int, local: int): int {
    f.begin + origin + local
  }

  /** The origin of segment `k`: only the first file is asked for one. */
  function OriginOf(p: Playlist, k: nat): int {
    if k == 0 then p.firstOrigin else 0
  }

  lemma {:induction false} RestAt(files: seq<MediaFile>, i: nat, start: int, end: int, k: nat)
    requires k < |Rest(files, i, start, end)|
    ensures i + k < |files|
    ensures var s := Rest(files, i, start, end)[k];
            s.media == files[i + k].name && s.offset == files[i + k].begin - start
    decreases |files| - i
  {
    if k > 0 { RestAt(files, i + 1, start, end, k - 1); }
  }

  /** Segment `k` plays file `k` from the first on, from the later of its begin and the start of the range. */
  lemma {:induction false} SegmentPlaysFile(files: seq<MediaFile>, start: int, end: int, k: nat)
    requires RangeFiles(files, start, end).Some? && k < |RangeFiles(files, start, end).value.segments|
    ensures var p, i := RangeFiles(files, start, end).value, FirstEndingAfter(files, 0, start);
            && i + k < |files| && p.segments[k].media == files[i + k].name
            && p.segments[k].offset == (if k == 0 then 0 else files[i + k].begin - start)
            && InstantAt(files[i], p.firstOrigin, 0) == if start < files[i].begin then files[i].begin else start
  {
    if k > 0 { RestAt(files, FirstEndingAfter(files, 0, start) + 1, start, end, k - 1); }
  }

  /** How far behind its place in the range segment `k` plays: only the first one is, by the gap before it. */
  function LateBy(f: MediaFile, start: int, k: nat): int {
    if k == 0 && start < f.begin then f.begin - start else 0
  }

  /** A tag goes out at the time of its instant in the range, but for those of the first file when the range
      begins in a gap: these go out too early by that gap. */
  lemma {:induction false} TagTimeExactly(files: seq<MediaFile>, start: int, end: int, k: nat, local: int)
    requires RangeFiles(files, start, end).Some? && k < |RangeFiles(files, start, end).value.segments|
    ensures var p, i := RangeFiles(files, start, end).value, FirstEndingAfter(files, 0, start);
            && i + k < |files|
            && var instant, out := InstantAt(files[i + k], OriginOf(p, k), local), local + p.segments[k].offset;
               && instant == start + out + LateBy(files[i], start, k)
               && (instant == start + out <==> k > 0 || files[i].begin <= start)
  {
    SegmentPlaysFile(files, start, end, k);
  }

  /** What is played after a seek: the instant asked for, moved on by the gaps between the segments skipped and,
      in the first file, by the gap before it. It is the one asked for exactly when there is neither. */
  lemma {:induction false} SeekInstantExactly(files: seq<MediaFile>, start: int, end: int, pos: int)
    requires Sorted(files) && start <= end && RangeFiles(files, start, end).Some?
    requires ToBePlayed(files, start, end, pos)
    ensures var p, i := RangeFiles(files, start, end).value, FirstEndingAfter(files, 0, start);
            var k := SegmentAt(p.segments, 0, pos);
            && k < |p.segments| && i + k < |files|
            && var played := InstantAt(files[i + k], OriginOf(p, k), pos - Duration(p.segments[..k]));
               && played == start + pos + GapBefore(p.segments, k) + LateBy(files[i], start, k)
               && (played == start + pos
                   <==> GapBefore(p.segments, k) == 0 && (k > 0 || files[i].begin <= start))
  {
    var segments := RangeFiles(files, start, end).value.segments;
    var k := SegmentAt(segments, 0, pos);
    assert k < |segments| && pos - Duration(segments[..k]) + segments[k].offset == pos + GapBefore(segments, k) by {
      RangeCoverage(files, start, end);
      SeekPosition(segments, pos);
    }
    SegmentPlaysFile(files, start, end, k);
  }

  /** A range that begins in a gap: a seek to 15 plays the instant 25, which the file does not even hold. */
  lemma {:induction false} SeekIntoFirstGap()
    ensures var files := [MediaFile("a", 10, 20)];
            && Sorted(files) && RangeFiles(files, 0, 30) == Some(Playlist([Segment("a", 0, 20)], 0, -1))
            && ToBePlayed(files, 0, 30, 15)
            && SegmentAt([Segment("a", 0, 20)], 0, 15) == 0 && GapBefore([Segment("a", 0, 20)], 0) == 0
            && InstantAt(files[0], 0, 15) == 25
  {
    var files := [MediaFile("a", 10, 20)];
    assert FirstEndingAfter(files, 0, 0) == 0;
    assert files[0].begin <= 0 + 15 < files[0].end;
    assert Rest(files, 1, 0, 30) == [] && RestLimit(files, 1, 0, 30) == -1;
    assert [Segment("a", 0, 20)] + [] == [Segment("a", 0, 20)];
  }

  // ---------- where playing ends ----------

  lemma {:induction false} RestLimitIs(files: seq<MediaFile>, i: nat, start: int, end: int)
    requires Rest(files, i, start, end) != []
    ensures var n := |Rest(files, i, start, end)|;
            && i + n <= |files|
            && RestLimit(files, i, start, end)
               == if files[i + n - 1].end < end then -1 else Rest(files, i, start, end)[n - 1].duration
    decreases |files| - i
  {
    if files[i].end < end {
      if Rest(files, i + 1, start, end) != [] { RestLimitIs(files, i + 1, start, end); }
    }
  }

  /** The last file is played without a limit exactly when it ends before the range does, or with it if it is the
      only one; otherwise the limit is the duration of the last segment. */
  lemma {:induction false} LimitExactly(files: seq<MediaFile>, start: int, end: int)
    requires RangeFiles(files, start, end).Some?
    ensures var p, i := RangeFiles(files, start, end).value, FirstEndingAfter(files, 0, start);
            var n := |p.segments|;
            && 0 < n <= |files| - i
            && p.lastLimit == if files[i + n - 1].end < end || (n == 1 && files[i].end == end) then -1
                              else p.segments[n - 1].duration
  {
    var i := FirstEndingAfter(files, 0, start);
    if end >= files[i].end && Rest(files, i + 1, start, end) != [] {
      RestLimitIs(files, i + 1, start, end);
    }
  }

  /** The limit asked for with segment `k`. */
  function LimitOf(p: Playlist, k: nat): int {
    if k == |p.segments| - 1 then p.lastLimit else -1
  }

  /** A file is played from its origin on, for as long as the limit says, or to its end. */
  predicate Plays(f: MediaFile, origin: int, limit: int, x: int) {
    f.begin + origin <= x < f.end && (limit == -1 || x < f.begin + origin + limit)
  }

  /** The instant `x` is played. */
  ghost predicate IsPlayed(files: seq<MediaFile>, start: int, p: Playlist, x: int) {
    var i := FirstEndingAfter(files, 0, start);
    exists k: nat :: k < |p.segments| && i + k < |files| && Plays(files[i + k], OriginOf(p, k), LimitOf(p, k), x)
  }

  lemma {:induction false} RestReaches(files: seq<MediaFile>, i: nat, start: int, end: int, j: nat)
    requires Sorted(files) && i <= j < |files| && files[j].begin < end
    ensures j - i < |Rest(files, i, start, end)|
    decreases j - i
  {
    if i < j { RestReaches(files, i + 1, start, end, j); }
  }

  lemma {:induction false} RestBefore(files: seq<MediaFile>, i: nat, start: int, end: int, k: nat)
    requires k < |Rest(files, i, start, end)|
    ensures i + k < |files|
    ensures var n := |Rest(files, i, start, end)|;
            if k < n - 1 then files[i + k].end < end
            else files[i + k].end < end || Rest(files, i, start, end)[k].duration == end - files[i + k].begin >= 0
    decreases |files| - i
  {
    if k > 0 { RestBefore(files, i + 1, start, end, k - 1); }
  }

  /** Only a range that lies in one file and begins in the gap before it is played past its end. */
  predicate Overshoots(files: seq<MediaFile>, start: int, end: int) {
    var i := FirstEndingAfter(files, 0, start);
    i < |files| && start < files[i].begin <= end < files[i].end
  }

  /** Where playing ends: then the gap comes on top of the end, as far as the file goes. */
  function PlayedUntil(files: seq<MediaFile>, start: int, end: int): int {
    var i := FirstEndingAfter(files, 0, start);
    if !Overshoots(files, start, end) then end
    else if end + (files[i].begin - start) < files[i].end then end + (files[i].begin - start)
    else files[i].end
  }

  lemma {:induction false} FirstPlays(files: seq<MediaFile>, start: int, end: int, x: int)
    requires Sorted(files) && start <= end && RangeFiles(files, start, end).Some?
    ensures var p, f := RangeFiles(files, start, end).value, files[FirstEndingAfter(files, 0, start)];
            Plays(f, OriginOf(p, 0), LimitOf(p, 0), x)
            <==> f.begin <= x < f.end && start <= x < PlayedUntil(files, start, end)
  {
    LimitExactly(files, start, end);
    FirstEndingAfterSpec(files, 0, start);
    var i := FirstEndingAfter(files, 0, start);
    if end >= files[i].end && |RangeFiles(files, start, end).value.segments| == 1 {
      assert Rest(files, i + 1, start, end) == [];
    }
  }

  lemma {:induction false} LaterPlays(files: seq<MediaFile>, start: int, end: int, k: nat, x: int)
    requires Sorted(files) && start <= end && RangeFiles(files, start, end).Some?
    requires 0 < k < |RangeFiles(files, start, end).value.segments|
    ensures var p, i := RangeFiles(files, start, end).value, FirstEndingAfter(files, 0, start);
            && i + k < |files|
            && (Plays(files[i + k], OriginOf(p, k), LimitOf(p, k), x)
                <==> files[i + k].begin <= x < files[i + k].end && x < end)
            && start <= files[i + k].begin && !Overshoots(files, start, end)
  {
    FirstEndingAfterSpec(files, 0, start);
    LaterLimit(files, start, end, k);
  }

  /** The limit of a later file: none when it ends before the range does, else up to the end of the range. */
  lemma {:induction false} LaterLimit(files: seq<MediaFile>, start: int, end: int, k: nat)
    requires RangeFiles(files, start, end).Some? && 0 < k < |RangeFiles(files, start, end).value.segments|
    ensures var p, i := RangeFiles(files, start, end).value, FirstEndingAfter(files, 0, start);
            && i + k < |files| && end >= files[i].end
            && if LimitOf(p, k) == -1 then files[i + k].end < end else LimitOf(p, k) == end - files[i + k].begin >= 0
  {
    var i := FirstEndingAfter(files, 0, start);
    var p, rest := RangeFiles(files, start, end).value, Rest(files, i + 1, start, end);
    LimitExactly(files, start, end);
    RestBefore(files, i + 1, start, end, k - 1);
    assert p.segments[k] == rest[k - 1] && |p.segments| == 1 + |rest|;
  }

  /** What is played is what files hold of the range, to the millisecond, but for the overshoot. */
  lemma {:induction false} PlaysTheRange(files: seq<MediaFile>, start: int, end: int, x: int)
    requires Sorted(files) && start <= end && RangeFiles(files, start, end).Some?
    ensures IsPlayed(files, start, RangeFiles(files, start, end).value, x)
            <==> Held(files, 0, x) && start <= x < PlayedUntil(files, start, end)
    ensures PlayedUntil(files, start, end) == end <==> !Overshoots(files, start, end)
  {
    var p, i := RangeFiles(files, start, end).value, FirstEndingAfter(files, 0, start);
    FirstPlays(files, start, end, x);
    if IsPlayed(files, start, p, x) {
      var k: nat :| k < |p.segments| && i + k < |files| && Plays(files[i + k], OriginOf(p, k), LimitOf(p, k), x);
      if k > 0 { LaterPlays(files, start, end, k, x); }
      assert Held(files, 0, x);
    }
    if start <= x < PlayedUntil(files, start, end) && Held(files, 0, x) {
      HeldFromFirst(files, start, x);
      var j :| i <= j < |files| && files[j].begin <= x < files[j].end;
      HeldIsPlayed(files, start, end, j, x);
    }
  }

  lemma {:induction false} HeldIsPlayed(files: seq<MediaFile>, start: int, end: int, j: nat, x: int)
    requires Sorted(files) && start <= end && RangeFiles(files, start, end).Some?
    requires FirstEndingAfter(files, 0, start) <= j < |files| && files[j].begin <= x < files[j].end
    requires start <= x < PlayedUntil(files, start, end)
    ensures IsPlayed(files, start, RangeFiles(files, start, end).value, x)
  {
    var p, i := RangeFiles(files, start, end).value, FirstEndingAfter(files, 0, start);
    if j == i {
      FirstPlays(files, start, end, x);
      assert Plays(files[i + 0], OriginOf(p, 0), LimitOf(p, 0), x);
    } else {
      RestReaches(files, i + 1, start, end, j);
      assert j - i < |p.segments|;
      LaterPlays(files, start, end, j - i, x);
      assert Plays(files[i + (j - i)], OriginOf(p, j - i), LimitOf(p, j - i), x);
    }
  }

  /** A range inside one file that begins in the gap before it: the file is played to 30, the range ends at 20. */
  lemma {:induction false} OvershootHappens()
    ensures var files := [MediaFile("a", 10, 30)];
            && Sorted(files) && RangeFiles(files, 0, 20) == Some(Playlist([Segment("a", 0, 20)], 0, 20))
            && Overshoots(files, 0, 20) && IsPlayed(files, 0, RangeFiles(files, 0, 20).value, 29)
  {
    var files := [MediaFile("a", 10, 30)];
    assert FirstEndingAfter(files, 0, 0) == 0;
    var p := Playlist([Segment("a", 0, 20)], 0, 20);
    assert Plays(files[0 + 0], OriginOf(p, 0), LimitOf(p, 0), 29);
    assert IsPlayed(files, 0, p, 29);
  }

  lemma {:induction false} SegmentAtSpec(segments: seq<Segment>, i: nat, pos: int)
    requires i <= |segments|
    ensures var k := SegmentAt(segments, i, pos);
            (forall j :: i <= j < k ==> !Contains(segments[j], pos)) && (k < |segments| ==> Contains(segments[k], pos))
    decreases |segments| - i
  {
    if i < |segments| && !Contains(segments[i], pos) { SegmentAtSpec(segments, i + 1, pos); }
  }

  // ---------- the request object ----------

  /** What is asked of the upstream element. */
  datatype UpRequest = UpRequest(media: string, seek: int, origin: Option<int>, limit: Option<int>)

  datatype SeekResult = Illegal | OutOfRange | Within(local: int) | Elsewhere(index: nat, local: int)

  class TimeRangeRequest {
    const startTs: int
    const endTs: int
    var files: seq<Segment>
    var firstOrigin: int
    var lastLimit: int
    var crtFile: int
    var upstream: Option<UpRequest>
    var eos: bool

    ghost predicate Valid()
      reads this
    {
      -1 <= crtFile <= |files| && (upstream.Some? ==> 0 <= crtFile < |files|)
    }

    constructor (media: seq<MediaFile>, start: int, end: int)
      ensures startTs == start && endTs == end && Valid() && crtFile == -1 && upstream == None && !eos
      ensures files == match RangeFiles(media, start, end) case None => [] case Some(p) => p.segments
    {
      startTs, endTs := start, end;
      files, firstOrigin, lastLimit, crtFile, upstream, eos := [], 0, -1, -1, None, false;
      new;
      SetRangeFiles(media);
    }

    /** Recomputes the files to play from the media now on disk. */
    method SetRangeFiles(media: seq<MediaFile>)
      modifies this`files, this`firstOrigin, this`lastLimit
      ensures match RangeFiles(media, startTs, endTs)
              case None => files == old(files) && firstOrigin == old(firstOrigin) && lastLimit == old(lastLimit)
              case Some(p) => Playlist(files, firstOrigin, lastLimit) == p
    {
      var i := FirstIndex(media);
      if i == |media| {
        return;
      }
      var toPlay: seq<Segment> := [];
      var origin, limit := 0, -1;
      ghost var first := i;
      ghost var goal := RangeFiles(media, startTs, endTs);
      while i < |media|
        invariant first <= i <= |media|
        invariant toPlay == [] <==> i == first
        invariant i == first ==> limit == -1
        invariant i > first ==>
                    && goal.Some? && origin == goal.value.firstOrigin && limit == -1
                    && toPlay + Rest(media, i, startTs, endTs) == goal.value.segments
                    && RestLimit(media, i, startTs, endTs) == goal.value.lastLimit
        invariant unchanged(this)
      {
        var f := media[i];
        if toPlay == [] {
          if endTs < f.begin {
            return;
          }
          var duration := if endTs < f.end then endTs - startTs else f.end - startTs;
          toPlay := [Segment(f.name, 0, duration)];
          origin := if startTs > f.begin then startTs - f.begin else 0;
          if endTs < f.end {
            limit := duration;
            break;
          }
        } else if f.end < endTs {
          toPlay := toPlay + [Segment(f.name, f.begin - startTs, f.end - f.begin)];
        } else if endTs < f.begin {
          break;
        } else {
          toPlay := toPlay + [Segment(f.name, f.begin - startTs, endTs - f.begin)];
          limit := endTs - f.begin;
          break;
        }
        i := i + 1;
      }
      files, firstOrigin, lastLimit := toPlay, origin, limit;
    }

    method FirstIndex(media: seq<MediaFile>) returns (i: nat)
      ensures i == FirstEndingAfter(media, 0, startTs)
    {
      i := 0;
      while i < |media| && media[i].end <= startTs
        invariant i <= |media| && FirstEndingAfter(media, i, startTs) == FirstEndingAfter(media, 0, startTs)
      {
        i := i + 1;
      }
    }

    /** The current file is asked for, the first one from the origin and the last one up to the limit. */
    predicate Asks(seek: int)
      requires 0 <= crtFile < |files|
      reads this
    {
      && upstream.Some? && upstream.value.media == files[crtFile].media
      && upstream.value.seek == (if seek > 0 then seek else 0)
      && upstream.value.origin == (if crtFile == 0 then Some(firstOrigin) else None)
      && upstream.value.limit == (if crtFile == |files| - 1 then Some(lastLimit) else None)
    }

    /** Sends the request for the current file, unless the mapper refuses it. */
    method IssueRequest(seek: int, accepted: bool)
      requires 0 <= crtFile < |files| && upstream == None
      modifies this`upstream, this`eos
      ensures eos == (old(eos) || !accepted)
      ensures upstream == if !accepted then None else Some(UpRequest(
                            files[crtFile].media, if seek > 0 then seek else 0,
                            if crtFile == 0 then Some(firstOrigin) else None,
                            if crtFile == |files| - 1 then Some(lastLimit) else None))
      ensures accepted ==> Asks(seek)
    {
      if !accepted {
        eos := true;
        return;
      }
      upstream := Some(UpRequest(files[crtFile].media, if seek > 0 then seek else 0,
                                 if crtFile == 0 then Some(firstOrigin) else None,
                                 if crtFile == |files| - 1 then Some(lastLimit) else None));
    }

    /** The next file, after asking for new ones if the list is used up; the end if there are none. */
    method PlayNext(media: seq<MediaFile>, accepted: bool, ghost known: seq<MediaFile>)
      requires Valid() && crtFile < |files|
      requires known <= media && Some(files) == SegmentsOf(known, startTs, endTs)
      modifies this
      ensures Valid() && old(files) <= files
      ensures files == old(files) || Some(files) == SegmentsOf(media, startTs, endTs)
      ensures old(crtFile) + 1 < |files| ==>
                && crtFile == old(crtFile) + 1
                && (if accepted then Asks(0) else upstream == None && eos)
      ensures old(crtFile) + 1 >= |files| ==>
                eos && upstream == None && Some(files) == SegmentsOf(media, startTs, endTs)
    {
      RefreshExtends(known, media[|known|..], startTs, endTs);
      assert known + media[|known|..] == media;
      upstream := None;
      crtFile := crtFile + 1;
      if crtFile == |files| {
        SetRangeFiles(media);
        if crtFile >= |files| {
          crtFile, eos := -1, true;
          return;
        }
      }
      IssueRequest(0, accepted);
    }

    method Seek(pos: int, accepted: bool) returns (r: SeekResult)
      requires Valid()
      modifies this`crtFile, this`upstream, this`eos
      ensures Valid()
      ensures var k := SegmentAt(files, 0, pos);
              r == if pos < 0 then Illegal
                   else if k == |files| then OutOfRange
                   else if k == old(crtFile) && old(upstream).Some? then Within(pos - Duration(files[..k]))
                   else Elsewhere(k, pos - Duration(files[..k]))
      ensures r.Elsewhere? ==> crtFile == r.index && if accepted then Asks(r.local) else upstream == None && eos
      ensures !r.Elsewhere? ==> crtFile == old(crtFile) && upstream == old(upstream)
    {
      if pos < 0 {
        return Illegal;
      }
      var i, skipped := 0, 0;
      while i < |files|
        invariant 0 <= i <= |files| && SegmentAt(files, i, pos) == SegmentAt(files, 0, pos)
        invariant skipped == Duration(files[..i])
      {
        if files[i].offset <= pos && pos < files[i].offset + files[i].duration {
          break;
        }
        skipped := skipped + files[i].duration;
        i := i + 1;
        assert files[..i][..i - 1] == files[..i - 1];
      }
      if i == |files| {
        return OutOfRange;
      }
      if i == crtFile && upstream.Some? {
        return Within(pos - skipped);
      }
      upstream := None;
      crtFile := i;
      IssueRequest(pos - skipped, accepted);
      r := Elsewhere(i, pos - skipped);
    }

    /** The timestamp a tag of the current file goes out with. */
    method ProcessTag(timestamp: int) returns (shifted: int)
      requires Valid() && upstream.Some?
      ensures shifted == timestamp + files[crtFile].offset
    {
      shifted := timestamp + files[crtFile].offset;
    }
  }

  // ---------- listing the recorded spans ----------

  datatype TimeSpan = TimeSpan(begin: int, end: int)

  /** The files joined where one begins as the one before ends. */
  function Spans(files: seq<MediaFile>): seq<TimeSpan> {
    if files == [] then []
    else
      var f, before := files[|files| - 1], Spans(files[..|files| - 1]);
      if before != [] && before[|before| - 1].end == f.begin
      then before[..|before| - 1] + [TimeSpan(before[|before| - 1].begin, f.end)]
      else before + [TimeSpan(f.begin, f.end)]
  }

  /** The spans closed so far and the one being extended; its begin is 0 as long as there is none. */
  datatype Walk = Walk(closed: seq<TimeSpan>, begin: int, end: int)

  function WalkOn(w: Walk, f: MediaFile): Walk {
    if w.begin == 0 then Walk(w.closed, f.begin, f.end)
    else if f.begin == w.end then w.(end := f.end)
    else Walk(w.closed + [TimeSpan(w.begin, w.end)], f.begin, f.end)
  }

  function Walked(media: seq<MediaFile>): Walk {
    if media == [] then Walk([], 0, 0) else WalkOn(Walked(media[..|media| - 1]), media[|media| - 1])
  }

  /** A file that begins at 0 is taken for no file when it comes first. */
  function Seen(media: seq<MediaFile>): seq<MediaFile> {
    if media != [] && media[0].begin == 0 then media[1..] else media
  }

  lemma {:induction false} WalkedSpans(media: seq<MediaFile>)
    requires forall i :: 0 <= i < |media| ==> media[i].begin != 0
    ensures media == [] ==> Walked(media) == Walk([], 0, 0)
    ensures media != [] ==>
              var w := Walked(media); w.begin != 0 && Spans(media) == w.closed + [TimeSpan(w.begin, w.end)]
  {
    if media != [] {
      var init := media[..|media| - 1];
      WalkedSpans(init);
      if init != [] {
        var w := Walked(init);
        assert (w.closed + [TimeSpan(w.begin, w.end)])[..|w.closed|] == w.closed;
      }
    }
  }

  lemma {:induction false} FirstAtZeroIsSkipped(media: seq<MediaFile>)
    requires media != [] && media[0].begin == 0
    ensures Walked(media).closed == Walked(media[1..]).closed
    ensures |media| > 1 ==> Walked(media) == Walked(media[1..])
  {
    if |media| > 1 {
      var init := media[..|media| - 1];
      assert init[1..] == media[1..][..|media| - 2];
      FirstAtZeroIsSkipped(init);
    }
  }

  /** Everything but the last span is reported. */
  lemma {:induction false} AllButLastSpan(media: seq<MediaFile>)
    requires Sorted(media) && forall i :: 0 <= i < |media| ==> 0 <= media[i].begin < media[i].end
    ensures var spans, seen := Walked(media).closed, Spans(Seen(media));
            spans == if seen == [] then [] else seen[..|seen| - 1]
  {
    var seen := Seen(media);
    if seen != media {
      FirstAtZeroIsSkipped(media);
    }
    WalkedSpans(seen);
    if seen != [] {
      var w := Walked(seen);
      assert (w.closed + [TimeSpan(w.begin, w.end)])[..|w.closed|] == w.closed;
    }
  }

  ghost predicate InSpan(spans: seq<TimeSpan>, x: int) {
    exists k :: 0 <= k < |spans| && spans[k].begin <= x < spans[k].end
  }

  /** Between two of the spans there is a gap. */
  predicate Apart(spans: seq<TimeSpan>) {
    && (forall k :: 0 <= k < |spans| ==> spans[k].begin <= spans[k].end)
    && (forall k :: 0 < k < |spans| ==> spans[k - 1].end < spans[k].begin)
  }

  lemma {:induction false} ApartOneMore(before: seq<TimeSpan>, f: MediaFile)
    requires Apart(before) && f.begin <= f.end && (before != [] ==> before[|before| - 1].end <= f.begin)
    ensures var last := |before| - 1;
            Apart(if before != [] && before[last].end == f.begin
                  then before[..last] + [TimeSpan(before[last].begin, f.end)] else before + [TimeSpan(f.begin, f.end)])
  {
  }

  lemma {:induction false} SpansAreApart(files: seq<MediaFile>)
    requires Sorted(files)
    ensures Apart(Spans(files))
    ensures files != [] ==> Spans(files) != [] && Spans(files)[|Spans(files)| - 1].end == files[|files| - 1].end
  {
    if files != [] {
      SpansAreApart(files[..|files| - 1]);
      ApartOneMore(Spans(files[..|files| - 1]), files[|files| - 1]);
    }
  }

  /** The joined spans hold what the files hold. */
  lemma {:induction false} SpansHold(files: seq<MediaFile>, x: int)
    requires Sorted(files)
    ensures InSpan(Spans(files), x) <==> Held(files, 0, x)
  {
    if files != [] {
      var init := files[..|files| - 1];
      SpansHold(init, x);
      SpansAreApart(init);
      HeldInit(files, x);
      InSpanInit(Spans(init), files[|files| - 1], x);
    }
  }

  lemma {:induction false} HeldInit(files: seq<MediaFile>, x: int)
    requires files != []
    ensures var f := files[|files| - 1]; Held(files, 0, x) <==> Held(files[..|files| - 1], 0, x) || f.begin <= x < f.end
  {
    var init, f := files[..|files| - 1], files[|files| - 1];
    if j :| 0 <= j < |init| && init[j].begin <= x < init[j].end {
      assert files[j].begin <= x < files[j].end;
    }
    if j :| 0 <= j < |files| && files[j].begin <= x < files[j].end && j < |init| {
      assert init[j].begin <= x < init[j].end;
    }
  }

  lemma {:induction false} InSpanInit(before: seq<TimeSpan>, f: MediaFile, x: int)
    requires f.begin <= f.end
    requires before != [] ==> before[|before| - 1].begin <= before[|before| - 1].end
    ensures var last := |before| - 1;
            var after := if before != [] && before[last].end == f.begin
                         then before[..last] + [TimeSpan(before[last].begin, f.end)]
                         else before + [TimeSpan(f.begin, f.end)];
            InSpan(after, x) <==> InSpan(before, x) || f.begin <= x < f.end
  {
    var last := |before| - 1;
    var joined := before != [] && before[last].end == f.begin;
    var after := if joined then before[..last] + [TimeSpan(before[last].begin, f.end)]
                 else before + [TimeSpan(f.begin, f.end)];
    if k :| 0 <= k < |before| && before[k].begin <= x < before[k].end {
      assert after[k].begin <= x < after[k].end;
    }
    if f.begin <= x < f.end {
      assert after[|after| - 1].begin <= x < after[|after| - 1].end;
    }
    if k :| 0 <= k < |after| && after[k].begin <= x < after[k].end && !(f.begin <= x < f.end) {
      assert before[k].begin <= x < before[k].end;
    }
  }

  lemma {:induction false} OneMoreFile(media: seq<MediaFile>, f: MediaFile)
    requires media != [] && Spans(media) != []
    requires Walked(media).begin != 0 && Spans(media)[|Spans(media)| - 1].end == Walked(media).end < f.begin
    ensures var w := Walked(media);
            Walked(media + [f]) == Walk(w.closed + [TimeSpan(w.begin, w.end)], f.begin, f.end)
    ensures Spans(media + [f]) == Spans(media) + [TimeSpan(f.begin, f.end)]
  {
    assert (media + [f])[..|media|] == media;
  }

  lemma {:induction false} FirstTwoFiles(a: MediaFile, b: MediaFile)
    requires a.begin == 0 && a.end < b.begin
    ensures Walked([a, b]) == Walk([], b.begin, b.end)
    ensures Spans([a, b]) == [TimeSpan(0, a.end), TimeSpan(b.begin, b.end)]
  {
    assert [a, b][..1] == [a] && [a][..0] == [];
    assert Spans([a]) == [TimeSpan(0, a.end)];
    assert Walked([a]) == Walk([], 0, a.end);
  }

  /** A file at 0 loses its span even when it is not the last. */
  lemma {:induction false} SpanAtZeroIsLost()
    ensures var files := [MediaFile("a", 0, 10), MediaFile("b", 20, 30), MediaFile("c", 40, 50)];
            && Spans(files) == [TimeSpan(0, 10), TimeSpan(20, 30), TimeSpan(40, 50)]
            && Walked(files).closed == [TimeSpan(20, 30)]
  {
    var a, b, c := MediaFile("a", 0, 10), MediaFile("b", 20, 30), MediaFile("c", 40, 50);
    FirstTwoFiles(a, b);
    OneMoreFile([a, b], c);
    assert [a, b] + [c] == [a, b, c];
  }

  method GetAllTimeSpans(media: seq<MediaFile>) returns (spans: seq<TimeSpan>)
    ensures spans == Walked(media).closed
    ensures Sorted(media) && (forall i :: 0 <= i < |media| ==> 0 <= media[i].begin < media[i].end) ==>
              spans == var all := Spans(Seen(media)); if all == [] then [] else all[..|all| - 1]
  {
    spans := [];
    var start, end := 0, 0;
    for i := 0 to |media|
      invariant Walk(spans, start, end) == Walked(media[..i])
    {
      assert media[..i + 1][..i] == media[..i];
      if start == 0 {
        start, end := media[i].begin, media[i].end;
      } else if media[i].begin == end {
        end := media[i].end;
      } else {
        spans := spans + [TimeSpan(start, end)];
        start, end := media[i].begin, media[i].end;
      }
    }
    assert media[..|media|] == media;
    if Sorted(media) && forall i :: 0 <= i < |media| ==> 0 <= media[i].begin < media[i].end {
      AllButLastSpan(media);
    }
  }
}
