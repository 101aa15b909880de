/**
 Grouping the part files of a directory into media files: which parts are due and go into one output, and
 the intervals that the outputs of a run cover. Times are in milliseconds; the directory is its sorted
 listing.
 */
module PartGrouping {
  import opened Options

  /** What a part file's name says: its begin, and whether a new chunk starts with it. */
  datatype Stamp = Stamp(ts: int, isNewChunk: bool)

  datatype File = File(name: string, stamp: Option<Stamp>)

  /** The files of one composition and the begin of the file after them, or 0. */
  datatype Selection = Selection(files: seq<File>, nextTs: int)

  /** A composed media file covers [begin, end). */
  datatype MediaFile = MediaFile(begin: int, end: int)

  /** A composition that was made, and the length of its result. */
  datatype Batch = Batch(files: seq<File>, nextTs: int, ms: int)

  // ---------- choosing the files ----------

  /** The rest of the loop over the files, from file `i`. */
  function Gather(files: seq<File>, i: nat, firstTs: int, outputMs: int, sel: Selection): Selection
    requires i <= |files|
    decreases |files| - i
  {
    if i == |files| then sel
    else
      match files[i].stamp
      case None => Gather(files, i + 1, firstTs, outputMs, sel)
      case Some(stamp) =>
        var nextTs := if stamp.isNewChunk then 0 else stamp.ts;
        if (stamp.isNewChunk && i > 0) || stamp.ts - firstTs > outputMs then sel.(nextTs := nextTs)
        else Gather(files, i + 1, firstTs, outputMs, Selection(sel.files + [files[i]], nextTs))
  }

  /** Enough files, or old ones. */
  predicate Due(files: seq<File>, outputMs: int, maxDelayMs: int, now: int) {
    && files != [] && files[0].stamp.Some? && files[|files| - 1].stamp.Some?
    && (|| files[|files| - 1].stamp.value.ts - files[0].stamp.value.ts > outputMs
        || now - files[|files| - 1].stamp.value.ts > maxDelayMs)
  }

  function Select(files: seq<File>, outputMs: int, maxDelayMs: int, now: int): Selection {
    if Due(files, outputMs, maxDelayMs, now) then Gather(files, 0, files[0].stamp.value.ts, outputMs, Selection([], 0))
    else Selection([], 0)
  }

  /** Readable names, each once, in the order of time. */
  ghost predicate Proper(files: seq<File>) {
    && (forall i :: 0 <= i < |files| ==> files[i].stamp.Some?)
    && (forall i, j :: 0 <= i < j < |files| ==> files[i].stamp.value.ts <= files[j].stamp.value.ts)
    && (forall i, j :: 0 <= i < j < |files| ==> files[i] != files[j])
  }

  function Ts(f: File): int {
    if f.stamp.Some? then f.stamp.value.ts else 0
  }

  predicate StartsChunk(f: File) {
    f.stamp.Some? && f.stamp.value.isNewChunk
  }

  /** `files` is a group with `rest` left: it spans `outputMs` at most, has a new chunk only at its start, and
      ends for a reason. `nextTs` is where the next file begins, 0 if it starts a chunk. */
  ghost predicate IsGroup(files: seq<File>, nextTs: int, rest: seq<File>, outputMs: int) {
    && files != []
    && (forall i :: 0 <= i < |files| ==> Ts(files[i]) - Ts(files[0]) <= outputMs)
    && (forall i :: 0 < i < |files| ==> !StartsChunk(files[i]))
    && (rest != [] ==> StartsChunk(rest[0]) || Ts(rest[0]) - Ts(files[0]) > outputMs)
    && var next := if rest != [] then rest[0] else files[|files| - 1];
       nextTs == if StartsChunk(next) then 0 else Ts(next)
  }

  lemma {:induction false} GatherIsGroup(files: seq<File>, i: nat, outputMs: int, nextTs: int)
    requires Proper(files) && outputMs >= 0 && i <= |files| && files != []
    requires forall j :: 0 <= j < i ==> Ts(files[j]) - Ts(files[0]) <= outputMs
    requires forall j :: 0 < j < i ==> !StartsChunk(files[j])
    requires i > 0 ==> nextTs == if StartsChunk(files[i - 1]) then 0 else Ts(files[i - 1])
    ensures var sel := Gather(files, i, Ts(files[0]), outputMs, Selection(files[..i], nextTs));
            && |sel.files| <= |files| && sel.files == files[..|sel.files|]
            && IsGroup(sel.files, sel.nextTs, files[|sel.files|..], outputMs)
    decreases |files| - i
  {
    if i < |files| {
      var stamp := files[i].stamp.value;
      if !((stamp.isNewChunk && i > 0) || stamp.ts - Ts(files[0]) > outputMs) {
        assert files[..i] + [files[i]] == files[..i + 1];
        GatherIsGroup(files, i + 1, outputMs, if stamp.isNewChunk then 0 else stamp.ts);
      }
    }
  }

  /** Some two parts begin more than an output apart. */
  ghost predicate AreMany(files: seq<File>, outputMs: int) {
    exists i, j :: 0 <= i < j < |files| && Ts(files[j]) - Ts(files[i]) > outputMs
  }

  /** Every part began longer ago than the delay. */
  ghost predicate AreOld(files: seq<File>, maxDelayMs: int, now: int) {
    forall i :: 0 <= i < |files| ==> now - Ts(files[i]) > maxDelayMs
  }

  lemma {:induction false} DueExactly(files: seq<File>, outputMs: int, maxDelayMs: int, now: int)
    requires Proper(files) && outputMs >= 0
    ensures Due(files, outputMs, maxDelayMs, now)
            <==> files != [] && (AreMany(files, outputMs) || AreOld(files, maxDelayMs, now))
  {
    if files != [] {
      var last := |files| - 1;
      assert Ts(files[0]) <= Ts(files[last]);
      if Ts(files[last]) - Ts(files[0]) > outputMs { assert AreMany(files, outputMs); }
    }
  }

  /** Something is chosen exactly when there are many parts or only old ones, and then it is a group at the front
      of the listing. */
  lemma {:induction false} SelectIsGroup(files: seq<File>, outputMs: int, maxDelayMs: int, now: int)
    requires Proper(files) && outputMs >= 0
    ensures var sel := Select(files, outputMs, maxDelayMs, now);
            && (sel.files != []
                <==> files != [] && (AreMany(files, outputMs) || AreOld(files, maxDelayMs, now)))
            && (sel.files == [] ==> sel.nextTs == 0)
            && (sel.files != [] ==> && |sel.files| <= |files| && sel.files == files[..|sel.files|]
                                    && IsGroup(sel.files, sel.nextTs, files[|sel.files|..], outputMs))
  {
    DueExactly(files, outputMs, maxDelayMs, now);
    if Due(files, outputMs, maxDelayMs, now) {
      assert files[..0] == [];
      GatherIsGroup(files, 0, outputMs, 0);
    }
  }

  function Readable(files: seq<File>): seq<File> {
    if files == [] then []
    else
      var last := files[|files| - 1];
      Readable(files[..|files| - 1]) + if last.stamp.Some? then [last] else []
  }

  /** The file ends the composition that begins at `firstTs`. */
  predicate Stops(files: seq<File>, c: nat, firstTs: int, outputMs: int)
    requires c < |files|
  {
    files[c].stamp.Some? && ((c > 0 && StartsChunk(files[c])) || Ts(files[c]) - firstTs > outputMs)
  }

  lemma {:induction false} GatherStops(files: seq<File>, i: nat, firstTs: int, outputMs: int, sel: Selection)
    returns (c: nat)
    requires i <= |files| && sel.files == Readable(files[..i])
    requires forall j :: 0 <= j < i ==> !Stops(files, j, firstTs, outputMs)
    ensures c <= |files| && Gather(files, i, firstTs, outputMs, sel).files == Readable(files[..c])
    ensures forall j :: 0 <= j < c ==> !Stops(files, j, firstTs, outputMs)
    ensures c < |files| ==>
              && Stops(files, c, firstTs, outputMs)
              && Gather(files, i, firstTs, outputMs, sel).nextTs == if StartsChunk(files[c]) then 0 else Ts(files[c])
    decreases |files| - i
  {
    c := i;
    if i < |files| && !Stops(files, i, firstTs, outputMs) {
      assert files[..i + 1][..i] == files[..i];
      match files[i].stamp
      case None => c := GatherStops(files, i + 1, firstTs, outputMs, sel);
      case Some(stamp) =>
        c := GatherStops(files, i + 1, firstTs, outputMs,
                         Selection(sel.files + [files[i]], if stamp.isNewChunk then 0 else stamp.ts));
    }
  }

  /** Whatever the listing: once a composition is due it takes the readable files up to the first that begins too
      late for it, or a new chunk. */
  lemma {:induction false} SelectStops(files: seq<File>, outputMs: int, maxDelayMs: int, now: int) returns (c: nat)
    requires Due(files, outputMs, maxDelayMs, now)
    ensures c <= |files| && Select(files, outputMs, maxDelayMs, now).files == Readable(files[..c])
    ensures forall j :: 0 <= j < c ==> !Stops(files, j, Ts(files[0]), outputMs)
    ensures c < |files| ==>
              && Stops(files, c, Ts(files[0]), outputMs)
              && Select(files, outputMs, maxDelayMs, now).nextTs == if StartsChunk(files[c]) then 0 else Ts(files[c])
  {
    c := GatherStops(files, 0, Ts(files[0]), outputMs, Selection([], 0));
  }

  // ---------- the files that stay ----------

  function Without(files: seq<File>, taken: seq<File>): seq<File> {
    if files == [] then []
    else Without(files[..|files| - 1], taken) + if files[|files| - 1] in taken then [] else [files[|files| - 1]]
  }

  lemma {:induction false} WithoutPrefix(files: seq<File>, n: nat)
    requires n <= |files| && forall i, j :: 0 <= i < j < |files| ==> files[i] != files[j]
    ensures Without(files, files[..n]) == files[n..]
  {
    WithoutPrefixOf(files, n, files[..n]);
  }

  lemma {:induction false} WithoutPrefixOf(files: seq<File>, n: nat, taken: seq<File>)
    requires n <= |files| && taken == files[..n] && forall i, j :: 0 <= i < j < |files| ==> files[i] != files[j]
    ensures Without(files, taken) == files[n..]
  {
    if files != [] {
      var init := files[..|files| - 1];
      if n == |files| {
        AllTaken(files, taken);
      } else {
        assert init[..n] == files[..n];
        WithoutPrefixOf(init, n, taken);
        assert files[n..] == init[n..] + [files[|files| - 1]];
      }
    }
  }

  lemma {:induction false} AllTaken(files: seq<File>, taken: seq<File>)
    requires forall f :: f in files ==> f in taken
    ensures Without(files, taken) == []
  {
    if files != [] { AllTaken(files[..|files| - 1], taken); }
  }

  /** Exactly the files not taken stay. */
  lemma {:induction false} WithoutKeeps(files: seq<File>, taken: seq<File>, f: File)
    ensures multiset(Without(files, taken))[f] == if f in taken then 0 else multiset(files)[f]
  {
    if files != [] {
      var init, last := files[..|files| - 1], files[|files| - 1];
      WithoutKeeps(init, taken, f);
      assert files == init + [last];
    }
  }

  lemma {:induction false} WithoutShrinks(files: seq<File>, taken: seq<File>)
    ensures |Without(files, taken)| <= |files|
    ensures (exists f :: f in taken && f in files) ==> |Without(files, taken)| < |files|
  {
    if files != [] { WithoutShrinks(files[..|files| - 1], taken); }
  }

  lemma {:induction false} GatheredAreListed(files: seq<File>, i: nat, firstTs: int, outputMs: int, sel: Selection)
    requires i <= |files| && forall f :: f in sel.files ==> f in files
    ensures forall f :: f in Gather(files, i, firstTs, outputMs, sel).files ==> f in files
    decreases |files| - i
  {
    if i < |files| {
      match files[i].stamp
      case None => GatheredAreListed(files, i + 1, firstTs, outputMs, sel);
      case Some(stamp) =>
        GatheredAreListed(files, i + 1, firstTs, outputMs,
                          Selection(sel.files + [files[i]], if stamp.isNewChunk then 0 else stamp.ts));
    }
  }

  /** Every composition uses up a file. */
  lemma {:induction false} SelectedShrinks(files: seq<File>, outputMs: int, maxDelayMs: int, now: int)
    requires Select(files, outputMs, maxDelayMs, now).files != []
    ensures |Without(files, Select(files, outputMs, maxDelayMs, now).files)| < |files|
  {
    var sel := Select(files, outputMs, maxDelayMs, now);
    GatheredAreListed(files, 0, files[0].stamp.value.ts, outputMs, Selection([], 0));
    assert sel.files[0] in sel.files && sel.files[0] in files;
    WithoutShrinks(files, sel.files);
  }

  // ---------- whole runs ----------

  /** The media file of a composition, if it holds more than metadata. */
  function OutputOf(b: Batch): seq<MediaFile> {
    if b.files == [] || b.ms <= 0 then []
    else [MediaFile(Ts(b.files[0]), if b.nextTs == 0 then Ts(b.files[0]) + b.ms else b.nextTs)]
  }

  lemma {:induction false} OutputIsMadeExactly(b: Batch)
    ensures OutputOf(b) != [] <==> b.files != [] && b.ms > 0
  {
  }

  function OutputsOf(batches: seq<Batch>): seq<MediaFile> {
    if batches == [] then []
    else OutputsOf(batches[..|batches| - 1]) + OutputOf(batches[|batches| - 1])
  }

  function FilesOf(batches: seq<Batch>): seq<File> {
    if batches == [] then [] else FilesOf(batches[..|batches| - 1]) + batches[|batches| - 1].files
  }

  /** The batches take `all` apart group by group and leave `rest`. */
  ghost predicate Grouped(batches: seq<Batch>, all: seq<File>, rest: seq<File>, outputMs: int) {
    if batches == [] then rest == all
    else
      var b := batches[|batches| - 1];
      IsGroup(b.files, b.nextTs, rest, outputMs) && Grouped(batches[..|batches| - 1], all, b.files + rest, outputMs)
  }

  /** Nothing is lost, doubled or moved. */
  lemma {:induction false} GroupsAreTheInput(batches: seq<Batch>, all: seq<File>, rest: seq<File>, outputMs: int)
    requires Grouped(batches, all, rest, outputMs)
    ensures FilesOf(batches) + rest == all
    ensures |batches| + |rest| <= |all|
  {
    if batches != [] {
      var b := batches[|batches| - 1];
      GroupsAreTheInput(batches[..|batches| - 1], all, b.files + rest, outputMs);
    }
  }

  /** Every batch is followed by the next one's files, or by the files that stay. */
  lemma {:induction false} EachIsGroup(batches: seq<Batch>, all: seq<File>, rest: seq<File>, outputMs: int,
                                       k: nat) returns (after: seq<File>)
    requires Grouped(batches, all, rest, outputMs) && k < |batches|
    ensures IsGroup(batches[k].files, batches[k].nextTs, after, outputMs)
    ensures k + 1 < |batches| ==> after != [] && batches[k + 1].files != [] && after[0] == batches[k + 1].files[0]
    ensures k + 1 == |batches| ==> after == rest
  {
    var n := |batches| - 1;
    if k == n {
      after := rest;
    } else {
      after := EachIsGroup(batches[..n], all, batches[n].files + rest, outputMs, k);
    }
  }

  /** Inside a chunk a media file ends exactly where the next one begins; before a new chunk, after its own length. */
  lemma {:induction false} OutputsMeet(batches: seq<Batch>, all: seq<File>, rest: seq<File>, outputMs: int, k: nat)
    requires Grouped(batches, all, rest, outputMs) && k + 1 < |batches| && batches[k].ms > 0
    ensures var a, b := batches[k], batches[k + 1];
            && a.files != [] && b.files != []
            && OutputOf(a) == [MediaFile(Ts(a.files[0]),
                                         if StartsChunk(b.files[0]) || Ts(b.files[0]) == 0 then Ts(a.files[0]) + a.ms
                                         else Ts(b.files[0]))]
            && (!StartsChunk(b.files[0]) ==> Ts(b.files[0]) - Ts(a.files[0]) > outputMs)
  {
    var after := EachIsGroup(batches, all, rest, outputMs, k);
  }

  /** Where any output ends: after its own length when no time is given, and otherwise where the file after
      it begins; it is cut short to the begin of its own last part exactly when no file is left after it. */
  lemma {:induction false} OutputEndsExactly(batches: seq<Batch>, all: seq<File>, rest: seq<File>, outputMs: int,
                                             k: nat)
    returns (after: seq<File>)
    requires Grouped(batches, all, rest, outputMs) && k < |batches| && batches[k].ms > 0
    ensures k + 1 == |batches| ==> after == rest
    ensures k + 1 < |batches| ==> after != [] && batches[k + 1].files != [] && after[0] == batches[k + 1].files[0]
    ensures var b := batches[k];
            && b.files != [] && |OutputOf(b)| == 1 && OutputOf(b)[0].begin == Ts(b.files[0])
            && var (last, end) := (b.files[|b.files| - 1], OutputOf(b)[0].end);
               && (b.nextTs == 0 ==> end == Ts(b.files[0]) + b.ms)
               && (b.nextTs != 0 ==> (end == Ts(last) <==> after == [] && !StartsChunk(last)))
               && (b.nextTs != 0 && after != [] ==>
                     !StartsChunk(after[0]) && end == Ts(after[0]) > Ts(b.files[0]) + outputMs)
               && (b.nextTs == 0 <==>
                     var next := if after != [] then after[0] else last; StartsChunk(next) || Ts(next) == 0)
  {
    after := EachIsGroup(batches, all, rest, outputMs, k);
    assert batches[k].nextTs != 0 && after != [] ==> Ts(after[0]) - Ts(batches[k].files[0]) > outputMs;
  }

  lemma {:induction false} OnePart(part: File, ts: int, outputMs: int, maxDelayMs: int, now: int)
    requires part.stamp == Some(Stamp(ts, false)) && outputMs >= 0 && now - ts > maxDelayMs
    ensures Select([part], outputMs, maxDelayMs, now) == Selection([part], ts)
  {
    assert Gather([part], 1, ts, outputMs, Selection([part], ts)) == Selection([part], ts);
    assert [] + [part] == [part];
  }

  /** It happens: one old part that starts no chunk makes a media file that covers nothing. */
  lemma {:induction false} OldPartCoversNothing(ms: int) returns (part: File, b: Batch)
    requires ms > 0
    ensures part == File("a.part", Some(Stamp(1000, false))) && Proper([part])
    ensures Select([part], 60000, 5000, 10000) == Selection(b.files, b.nextTs) && b.ms == ms
    ensures Grouped([b], [part], [], 60000) && OutputOf(b) == [MediaFile(1000, 1000)]
  {
    part := File("a.part", Some(Stamp(1000, false)));
    b := Batch([part], 1000, ms);
    OnePart(part, 1000, 60000, 5000, 10000);
    assert [b][..0] == [] && b.files + [] == [part];
  }

  lemma {:induction false} GroupedAppend(batches: seq<Batch>, b: Batch, all: seq<File>, rest: seq<File>, outputMs: int)
    requires Grouped(batches, all, b.files + rest, outputMs) && IsGroup(b.files, b.nextTs, rest, outputMs)
    ensures Grouped(batches + [b], all, rest, outputMs)
  {
    assert (batches + [b])[..|batches|] == batches;
  }

  lemma {:induction false} ProperRest(files: seq<File>, n: nat)
    requires Proper(files) && n <= |files|
    ensures Proper(files[n..])
  {
  }

  /** One more composition. */
  lemma {:induction false} GroupedOneMore(batches: seq<Batch>, all: seq<File>, dir: seq<File>, outputMs: int,
                                          maxDelayMs: int, now: int, ms: int)
    requires Grouped(batches, all, dir, outputMs) && Proper(dir) && outputMs >= 0
    requires Select(dir, outputMs, maxDelayMs, now).files != []
    ensures var sel := Select(dir, outputMs, maxDelayMs, now);
            var left := Without(dir, sel.files);
            Grouped(batches + [Batch(sel.files, sel.nextTs, ms)], all, left, outputMs) && Proper(left)
  {
    var sel := Select(dir, outputMs, maxDelayMs, now);
    var n := |sel.files|;
    assert n <= |dir| && sel.files == dir[..n] && IsGroup(sel.files, sel.nextTs, dir[n..], outputMs) by {
      SelectIsGroup(dir, outputMs, maxDelayMs, now);
    }
    WithoutPrefix(dir, n);
    ProperRest(dir, n);
    assert sel.files + dir[n..] == dir;
    GroupedAppend(batches, Batch(sel.files, sel.nextTs, ms), all, dir[n..], outputMs);
  }

  class Processor {
    const outputMs: int
    const maxDelayMs: int
    var dir: seq<File>
    var media: seq<MediaFile>
    ghost var batches: seq<Batch>

    constructor (outputMs: int, maxDelayMs: int, dir: seq<File>)
      ensures this.outputMs == outputMs && this.maxDelayMs == maxDelayMs && this.dir == dir && media == []
              && batches == []
    {
      this.outputMs, this.maxDelayMs, this.dir := outputMs, maxDelayMs, dir;
      media, batches := [], [];
    }

    method GetProcessableFiles(now: int) returns (files: seq<File>, nextTs: int)
      ensures Selection(files, nextTs) == Select(dir, outputMs, maxDelayMs, now)
    {
      files, nextTs := [], 0;
      if dir == [] || dir[0].stamp.None? || dir[|dir| - 1].stamp.None? {
        return;
      }
      var firstTs, lastTs := dir[0].stamp.value.ts, dir[|dir| - 1].stamp.value.ts;
      if lastTs - firstTs > outputMs || now - lastTs > maxDelayMs {
        var i := 0;
        while i < |dir|
          invariant i <= |dir|
          invariant Gather(dir, i, firstTs, outputMs, Selection(files, nextTs))
                    == Select(dir, outputMs, maxDelayMs, now)
        {
          if dir[i].stamp.None? {
            i := i + 1;
            continue;
          }
          var stamp := dir[i].stamp.value;
          nextTs := if stamp.isNewChunk then 0 else stamp.ts;
          if (stamp.isNewChunk && i > 0) || stamp.ts - firstTs > outputMs {
            break;
          }
          files := files + [dir[i]];
          i := i + 1;
        }
      }
    }

    /** One composition. `join` gives the length of what the files are joined into, negative on failure. */
    method ProcessDirectoryOnce(now: int, join: seq<File> -> int) returns (ok: bool)
      modifies this
      ensures var sel := Select(old(dir), outputMs, maxDelayMs, now);
              && ok == (sel.files != [] && join(sel.files) >= 0)
              && (!ok ==> dir == old(dir) && media == old(media) && batches == old(batches))
              && (ok ==> var b := Batch(sel.files, sel.nextTs, join(sel.files));
                         && dir == Without(old(dir), sel.files) && |dir| < |old(dir)|
                         && media == old(media) + OutputOf(b) && batches == old(batches) + [b])
    {
      var files, nextTs := GetProcessableFiles(now);
      if files == [] {
        return false;
      }
      var begin := Ts(files[0]);
      var ms := join(files);
      if ms < 0 {
        return false;
      }
      if ms > 0 {
        var end := nextTs;
        if nextTs == 0 {
          end := begin + ms;
        }
        media := media + [MediaFile(begin, end)];
      }
      SelectedShrinks(dir, outputMs, maxDelayMs, now);
      dir := Without(dir, files);
      batches := batches + [Batch(files, nextTs, ms)];
      return true;
    }

    /** Compositions until nothing is due, joining fails or the processor is stopped. `clock` and `stopped` give
        the time and the stop signal at each turn. */
    method ProcessDirectory(clock: nat -> int, stopped: nat -> bool, join: seq<File> -> int) returns (turns: nat)
      modifies this
      ensures turns + |dir| <= |old(dir)|
      ensures Proper(old(dir)) && outputMs >= 0 && old(batches) == [] && old(media) == [] ==>
                && Grouped(batches, old(dir), dir, outputMs) && Proper(dir)
                && media == OutputsOf(batches) && |batches| == turns
      ensures || stopped(turns)
              || (var sel := Select(dir, outputMs, maxDelayMs, clock(turns)); sel.files == [] || join(sel.files) < 0)
    {
      turns := 0;
      while true
        invariant turns + |dir| <= |old(dir)|
        invariant Proper(old(dir)) && outputMs >= 0 && old(batches) == [] && old(media) == [] ==>
                    && Grouped(batches, old(dir), dir, outputMs) && Proper(dir)
                    && media == OutputsOf(batches) && |batches| == turns
        decreases |dir|
      {
        if stopped(turns) {
          return;
        }
        ghost var before, files := batches, dir;
        var ok := ProcessDirectoryOnce(clock(turns), join);
        if !ok {
          return;
        }
        if Proper(old(dir)) && outputMs >= 0 && old(batches) == [] && old(media) == [] {
          SelectIsGroup(files, outputMs, maxDelayMs, clock(turns));
          GroupedOneMore(before, old(dir), files, outputMs, maxDelayMs, clock(turns),
            join(Select(files, outputMs, maxDelayMs, clock(turns)).files));
          assert batches[..|before|] == before;
        }
        turns := turns + 1;
      }
    }
  }
}
