/**
 What a run of the time shift takes in and sends, said of the steps themselves: the tags, their times
 and infos, and what one step changes for whom.
 */
module TimeShiftLaw {
  import opened Options
  import opened TimeShift

  // ---------- the tags taken in ----------

  predicate IsFlv(step: Step) {
    step.Ingest? && step.tag.kind.Flv?
  }

  predicate IsInfo(step: Step) {
    step.Ingest? && step.tag.kind.MediaInfo?
  }

  /** How many media tags the steps bring. */
  function Number(steps: seq<Step>): nat {
    if steps == [] then 0
    else Number(steps[..|steps| - 1]) + if IsFlv(steps[|steps| - 1]) then 1 else 0
  }

  /** The times at which they come. */
  function Times(steps: seq<Step>): (times: seq<int>)
    ensures |times| == Number(steps)
  {
    if steps == [] then []
    else
      var last := steps[|steps| - 1];
      Times(steps[..|steps| - 1]) + if IsFlv(last) then [last.ts] else []
  }

  /** What becomes of a media info: it can be paused but not sought in, and has no duration. */
  predicate Made(from: Info, made: Info) {
    match from
    case NoInfo => made == NoInfo
    case Info(content, _, _, _) => made == Info(content, true, false, 0)
  }

  /** The info in force before step `k`: that of the last media info before it, or none. */
  ghost predicate InForce(steps: seq<Step>, k: nat, info: Info)
    requires k <= |steps|
  {
    || (info == NoInfo && forall m :: 0 <= m < k ==> !IsInfo(steps[m]))
    || exists m: nat :: LastInfo(steps, m, k) && Made(steps[m].tag.kind.info, info)
  }

  predicate LastInfo(steps: seq<Step>, m: nat, k: nat)
    requires k <= |steps|
  {
    m < k && IsInfo(steps[m]) && forall j :: m < j < k ==> !IsInfo(steps[j])
  }

  /** Media tag `i` of the steps is taken in, in its turn and under the info in force. */
  ghost predicate TakenAt(steps: seq<Step>, i: nat, taken: seq<Frame>)
    requires i < |steps| && IsFlv(steps[i])
  {
    var n := Number(steps[..i]);
    n < |taken| && taken[n].tag == steps[i].tag && taken[n].info.Some? && InForce(steps, i, taken[n].info.value)
  }

  ghost predicate Takes(steps: seq<Step>, s: State) {
    && s.buffers != [] && InForce(steps, |steps|, s.buffers[|s.buffers| - 1].info)
    && |s.taken| == Number(steps)
    && forall i :: 0 <= i < |steps| && IsFlv(steps[i]) ==> TakenAt(steps, i, s.taken)
  }

  lemma {:induction false} NumberGrows(steps: seq<Step>, i: nat)
    requires i < |steps| && IsFlv(steps[i])
    ensures Number(steps[..i]) < Number(steps)
    decreases |steps|
  {
    var init := steps[..|steps| - 1];
    if i < |init| {
      assert init[..i] == steps[..i];
      NumberGrows(init, i);
    }
  }

  lemma {:induction false} InForceLater(steps: seq<Step>, step: Step, k: nat, info: Info)
    requires k <= |steps| && InForce(steps, k, info)
    ensures InForce(steps + [step], k, info)
  {
    var more := steps + [step];
    if m: nat :| LastInfo(steps, m, k) && Made(steps[m].tag.kind.info, info) {
      assert LastInfo(more, m, k) && more[m] == steps[m];
    }
  }

  /** One more step keeps the law if it takes in what it brings and has the right info in force. */
  lemma {:induction false} TakesOneMore(steps: seq<Step>, step: Step, s: State, t: State)
    requires Takes(steps, s) && t.buffers != []
    requires var info, info' := s.buffers[|s.buffers| - 1].info, t.buffers[|t.buffers| - 1].info;
             && (if IsInfo(step) then Made(step.tag.kind.info, info') else info' == info)
             && t.taken == s.taken + if IsFlv(step) then [Frame(step.tag, Some(info))] else []
    ensures Takes(steps + [step], t)
  {
    var more, n := steps + [step], |steps|;
    var info' := t.buffers[|t.buffers| - 1].info;
    assert more[..n] == steps;
    InForceNow(steps, step, s.buffers[|s.buffers| - 1].info, info');
    forall i | 0 <= i < |more| && IsFlv(more[i]) ensures TakenAt(more, i, t.taken) {
      if i < n {
        assert more[..i] == steps[..i] && TakenAt(steps, i, s.taken);
        InForceLater(steps, step, i, s.taken[Number(steps[..i])].info.value);
      } else {
        InForceLater(steps, step, n, s.buffers[|s.buffers| - 1].info);
      }
    }
  }

  lemma {:induction false} InForceNow(steps: seq<Step>, step: Step, info: Info, info': Info)
    requires InForce(steps, |steps|, info)
    requires if IsInfo(step) then Made(step.tag.kind.info, info') else info' == info
    ensures InForce(steps + [step], |steps| + 1, info')
  {
    var more, n := steps + [step], |steps|;
    if IsInfo(step) {
      assert LastInfo(more, n, n + 1) && more[n] == step;
    } else if m: nat :| LastInfo(steps, m, n) && Made(steps[m].tag.kind.info, info) {
      assert LastInfo(more, m, n + 1) && more[m] == steps[m];
    }
  }

  /** The info of the last buffer, which is in force. */
  function LastOf(s: State): Info
    requires s.buffers != []
  {
    s.buffers[|s.buffers| - 1].info
  }

  lemma {:induction false} RotateKeepsInfo(s: State)
    requires Exists(s)
    ensures Rotate(s).buffers != [] && LastOf(Rotate(s)) == LastOf(s) && Rotate(s).taken == s.taken
  {
    var t := StartBuffer(s);
    if |t.buffers| == 2 { TwoBuffersStay(t); }
    assert LastOf(t) == LastOf(s) && t.taken == s.taken;
    assert LastOf(MadeRoom(t)) == LastOf(t);
  }

  /** What a tag does to the tags taken in and the info in force. */
  lemma {:induction false} IngestTakes(s: State, tag: Tag, ts: int)
    requires Exists(s)
    ensures var t := Ingested(s, tag, ts);
            && t.buffers != []
            && (if tag.kind.MediaInfo? then Made(tag.kind.info, LastOf(t)) else LastOf(t) == LastOf(s))
            && t.taken == s.taken + if tag.kind.Flv? then [Frame(tag, Some(LastOf(s)))] else []
  {
    RotateKeepsInfo(s);
  }

  lemma {:induction false} RemovalTakesNothing(s: State, r: Request)
    requires Safe(s) && Has(s, r)
    ensures var t := Removed(s, r); t.buffers != [] && LastOf(t) == LastOf(s) && t.taken == s.taken
  {
    assert Chained(s, At(s, r)) && Chained(s, |s.buffers| - 1);
  }

  lemma {:induction false} AlarmTakesNothing(s: State, r: Request, appetite: nat)
    requires Has(s, r) && CanMoveOn(s, r)
    ensures var t := Fired(s, r, appetite); t.buffers != [] && LastOf(t) == LastOf(s) && t.taken == s.taken
  {
  }

  /** Any other step takes nothing in. */
  lemma {:induction false} OthersTakeNothing(s: State, step: Step)
    requires Safe(s) && Offered(s, step) && Survives(s, step) && !step.Ingest?
    ensures var t := Do(s, step); t.buffers != [] && LastOf(t) == LastOf(s) && t.taken == s.taken
  {
    match step
    case AlarmOf(r, appetite) => AlarmTakesNothing(s, r, appetite);
    case PauseOf(r, pause) =>
    case Add(r, delayMs) =>
    case Remove(r) => RemovalTakesNothing(s, r);
  }

  lemma {:induction false} StepTakes(steps: seq<Step>, s: State, step: Step)
    requires Takes(steps, s) && Inv(s) && Offered(s, step) && Survives(s, step)
    ensures Takes(steps + [step], Do(s, step))
  {
    if step.Ingest? {
      IngestTakes(s, step.tag, step.ts);
    } else {
      OthersTakeNothing(s, step);
    }
    TakesOneMore(steps, step, s, Do(s, step));
  }

  /** In every run the tags taken in are the media tags of its steps, each once, in order and under the info in
      force when it came. */
  lemma {:induction false} TakenExactly(bufferSizeMs: nat, steps: seq<Step>)
    requires After(Initial(bufferSizeMs), steps).Some?
    ensures Takes(steps, After(Initial(bufferSizeMs), steps).value)
  {
    if steps != [] {
      var init, step := steps[..|steps| - 1], steps[|steps| - 1];
      var s := After(Initial(bufferSizeMs), init).value;
      assert Inv(s) by { EveryRun(bufferSizeMs, init); }
      TakenExactly(bufferSizeMs, init);
      assert steps == init + [step];
      if Offered(s, step) {
        StepTakes(init, s, step);
      } else {
        TakesOneMore(init, step, s, s);
      }
    }
  }

  // ---------- the times of the tags ----------

  /** The buffer keeps each of its tags with the time since its first one. */
  predicate BufferTimed(b: Buffer, times: seq<int>) {
    !b.closed && b.media != [] ==>
      && b.base + |b.media| <= |times| && b.firstTs == times[b.base] != -1
      && forall i :: 0 <= i < |b.media| ==> b.media[i].ts == times[b.base + i] - times[b.base]
  }

  predicate Timed(s: State, times: seq<int>) {
    |times| == |s.taken| && forall k :: 0 <= k < |s.buffers| ==> BufferTimed(s.buffers[k], times)
  }

  /** The same as far as times are concerned, or emptied. */
  predicate SameTimes(b: Buffer, c: Buffer) {
    || c.closed || c.media == []
    || (!b.closed && b.base == c.base && b.media == c.media && b.firstTs == c.firstTs)
  }

  ghost predicate FromSome(s: State, c: Buffer) {
    c.closed || c.media == [] || exists k :: 0 <= k < |s.buffers| && SameTimes(s.buffers[k], c)
  }

  lemma {:induction false} TimedFrom(s: State, t: State, times: seq<int>)
    requires Timed(s, times) && t.taken == s.taken
    requires forall k :: 0 <= k < |t.buffers| ==> FromSome(s, t.buffers[k])
    ensures Timed(t, times)
  {
    forall k | 0 <= k < |t.buffers| ensures BufferTimed(t.buffers[k], times) {
      assert FromSome(s, t.buffers[k]);
    }
  }

  lemma {:induction false} NewBufferKeepsTimes(s: State, times: seq<int>)
    requires Exists(s) && Timed(s, times)
    ensures Timed(StartBuffer(s), times)
  {
    var t := StartBuffer(s);
    forall k | 0 <= k < |t.buffers| ensures FromSome(s, t.buffers[k]) {
      if k < |s.buffers| { assert SameTimes(s.buffers[k], t.buffers[k]); }
    }
    TimedFrom(s, t, times);
  }

  lemma {:induction false} RoomKeepsTimes(s: State, times: seq<int>)
    requires s.buffers != [] && Timed(s, times)
    ensures Timed(MadeRoom(s), times)
  {
    var t := MadeRoom(s);
    forall k | 0 <= k < |t.buffers| ensures FromSome(s, t.buffers[k]) {
      if !t.buffers[k].closed {
        assert SameTimes(s.buffers[if |t.buffers| == |s.buffers| then k else k + 1], t.buffers[k]);
      }
    }
    TimedFrom(s, t, times);
  }

  lemma {:induction false} WakingKeepsTimes(s: State, times: seq<int>)
    requires |s.buffers| >= 2 && Timed(s, times)
    ensures Timed(WakePrevious(s), times)
  {
    forall k | 0 <= k < |s.buffers| ensures FromSome(s, WakePrevious(s).buffers[k]) {
      assert SameTimes(s.buffers[k], WakePrevious(s).buffers[k]);
    }
    TimedFrom(s, WakePrevious(s), times);
  }

  lemma {:induction false} RotateKeepsTimes(s: State, times: seq<int>)
    requires Exists(s) && Timed(s, times)
    ensures Timed(Rotate(s), times)
  {
    var t := StartBuffer(s);
    if |t.buffers| == 2 { TwoBuffersStay(t); }
    NewBufferKeepsTimes(s, times);
    RoomKeepsTimes(t, times);
    WakingKeepsTimes(MadeRoom(t), times);
  }

  lemma {:induction false} LaterTimes(b: Buffer, times: seq<int>, ts: int)
    requires BufferTimed(b, times)
    ensures BufferTimed(b, times + [ts])
  {
  }

  lemma {:induction false} LongerTimes(b: Buffer, times: seq<int>, tag: Tag, ts: int)
    requires BufferTimed(b, times) && !b.closed && b.base + |b.media| == |times|
    requires tag.kind.Flv? && InStep(b, tag, ts) && ts != -1
    ensures var c := b.(firstTs := StartTs(b, ts));
            BufferTimed(c.(media := c.media + [Stamped(tag, ts - c.firstTs)]), times + [ts])
  {
  }

  lemma {:induction false} AppendKeepsTimes(s: State, tag: Tag, ts: int, times: seq<int>)
    requires Safe(s) && Timed(s, times) && Stored(tag) && InStep(s.buffers[|s.buffers| - 1], tag, ts)
    requires tag.kind.Flv? ==> ts != -1
    requires tag.kind.MediaInfo? ==> s.buffers[|s.buffers| - 1].media == []
    ensures Timed(Append(s, tag, ts), if tag.kind.Flv? then times + [ts] else times)
  {
    var t, last := Append(s, tag, ts), |s.buffers| - 1;
    assert Chained(s, last);
    forall k | 0 <= k < |t.buffers|
      ensures BufferTimed(t.buffers[k], if tag.kind.Flv? then times + [ts] else times)
    {
      LaterTimes(s.buffers[k], times, ts);
      if k == last && tag.kind.Flv? { LongerTimes(s.buffers[last], times, tag, ts); }
    }
  }

  lemma {:induction false} IngestKeepsTimes(s: State, tag: Tag, ts: int, times: seq<int>)
    requires Inv(s) && Timed(s, times) && InTime(s, tag, ts) && (tag.kind.Flv? ==> ts != -1)
    ensures Timed(Ingested(s, tag, ts), if tag.kind.Flv? then times + [ts] else times)
  {
    if Stored(tag) {
      ReceivingKeeps(s, tag);
      if Rotates(s, tag) { RotateKeepsTimes(s, times); }
      AppendKeepsTimes(Receiving(s, tag), tag, ts, times);
    }
  }

  lemma {:induction false} RemovalKeepsTimes(s: State, r: Request, times: seq<int>)
    requires Has(s, r) && Timed(s, times)
    ensures Timed(Removed(s, r), times)
  {
    var t, n := Removed(s, r), At(s, r);
    forall k | 0 <= k < |t.buffers| ensures FromSome(s, t.buffers[k]) {
      assert SameTimes(s.buffers[if |t.buffers| == |s.buffers| || k < n then k else k + 1], t.buffers[k]);
    }
    TimedFrom(s, t, times);
  }

  lemma {:induction false} OtherKeepsTimes(s: State, step: Step, times: seq<int>)
    requires Inv(s) && Timed(s, times) && Offered(s, step) && Survives(s, step) && !step.Ingest?
    ensures Timed(Do(s, step), times)
  {
    if step.Remove? {
      RemovalKeepsTimes(s, step.r, times);
    } else {
      var t := Do(s, step);
      forall k | 0 <= k < |t.buffers| ensures FromSome(s, t.buffers[k]) {
        assert SameTimes(s.buffers[k], t.buffers[k]);
      }
      OthersTakeNothing(s, step);
      TimedFrom(s, t, times);
    }
  }

  /** In every run each buffered tag has the time since the first one of its buffer, by the times at which the
      steps brought them. The code keeps -1 for a time not set, so none comes at -1. */
  lemma {:induction false} TimesExactly(bufferSizeMs: nat, steps: seq<Step>)
    requires After(Initial(bufferSizeMs), steps).Some?
    requires forall i :: 0 <= i < |steps| && IsFlv(steps[i]) ==> steps[i].ts != -1
    ensures Timed(After(Initial(bufferSizeMs), steps).value, Times(steps))
  {
    if steps != [] {
      var init, step := steps[..|steps| - 1], steps[|steps| - 1];
      TimesExactly(bufferSizeMs, init);
      EveryRun(bufferSizeMs, init);
      var s := After(Initial(bufferSizeMs), init).value;
      if Offered(s, step) {
        if step.Ingest? {
          IngestKeepsTimes(s, step.tag, step.ts, Times(init));
        } else {
          OtherKeepsTimes(s, step, Times(init));
        }
      }
    }
  }

  // ---------- what a client is sent ----------

  /** Media tags `from` to `from + n` of the buffer, at their times from `first` on. */
  function Sent(b: Buffer, from: nat, n: nat, first: int): seq<Event>
    requires from + n <= |b.media|
  {
    seq(n, i requires 0 <= i < n => Media(b.media[from + i].tag, b.media[from + i].ts - first))
  }

  /** How many tags are sent: all that are left, or as many as it takes for the client to pause. */
  function Due(left: nat, appetite: nat): nat {
    if 0 < appetite <= left then appetite else left
  }

  /** A client is sent one tag after the other from its index on, the first one behind the source's start and the
      media info; with a last tag that makes it pause, or the last of the buffer. */
  lemma {:induction false} PlaySends(b: Buffer, p: Progress, appetite: nat)
    requires p.ctl.pauses == 0 && p.ctl.index <= |b.media|
    ensures var q, c, left := Play(b, p, appetite), p.ctl, |b.media| - p.ctl.index;
            var n := Due(left, appetite);
            var first := if n > 0 && !c.bootstrapped then b.media[c.index].ts else c.firstTs;
            && q.events == p.events + (if n > 0 && !c.bootstrapped then [SourceStarted, Announced(b.info)] else [])
                           + Sent(b, c.index, n, first)
            && q.ctl == Controller(c.index + n, if 0 < appetite <= left then 1 else 0,
                                   c.armed && !(0 < appetite <= left), c.bootstrapped || n > 0, first)
    decreases |b.media| - p.ctl.index
  {
    if p.ctl.index < |b.media| {
      var q := SendNext(b, p);
      if appetite != 1 {
        PlaySends(b, q, if appetite == 0 then 0 else appetite - 1);
      }
    }
  }

  // ---------- what a step changes ----------

  /** The client is where it was, with the same controller and events. */
  predicate SameClient(s: State, t: State, q: Request) {
    && Has(s, q) && Has(t, q) && t.bufferOf[q] == s.bufferOf[q]
    && ClientOf(t, q) == ClientOf(s, q) && t.start[q] == s.start[q]
  }

  /** A buffer of the new state still has the client, and the histories are as they were. */
  predicate Keeps(s: State, t: State, q: Request, k: nat) {
    && Has(s, q) && k < |t.buffers| && t.buffers[k].id == s.buffers[At(s, q)].id
    && q in t.buffers[k].requests && t.buffers[k].requests[q] == ClientOf(s, q).ctl
    && q in t.sent && t.sent[q] == s.sent[q] && q in t.start && t.start[q] == s.start[q]
  }

  lemma {:induction false} KeptIsSame(s: State, t: State, q: Request, k: nat)
    requires Safe(s) && Safe(t) && Keeps(s, t, q, k)
    ensures SameClient(s, t, q)
  {
    ClientAt(t, k, q, t.buffers[k].requests[q]);
    assert Serves(t, k, q);
    MapsAgree(s, q);
  }

  lemma {:induction false} FiringIsLocal(s: State, r: Request, appetite: nat, q: Request)
    requires Has(s, r) && CanMoveOn(s, r) && q != r && Has(s, q)
    ensures Keeps(s, Fired(s, r, appetite), q, At(s, q))
  {
  }

  lemma {:induction false} AddingIsLocal(s: State, r: Request, delayMs: int, q: Request)
    requires delayMs >= 0 && q != r && Has(s, q)
    ensures Keeps(s, Added(s, r, delayMs), q, At(s, q))
  {
  }

  lemma {:induction false} RemovalIsLocal(s: State, r: Request, q: Request) returns (k: nat)
    requires Safe(s) && Has(s, r) && q != r && Has(s, q)
    ensures Keeps(s, Removed(s, r), q, k)
  {
    var t := Drop(s, At(s, r), r);
    assert q in t.buffers[At(s, q)].requests;
    k := At(s, q);
    if |Removed(s, r).buffers| < |s.buffers| && At(s, r) < k {
      k := k - 1;
    }
  }

  /** What is done for one client changes nothing for another. */
  lemma {:induction false} StepIsLocal(s: State, step: Step, q: Request)
    requires Inv(s) && Offered(s, step) && Survives(s, step) && !step.Ingest? && step.r != q && Has(s, q)
    ensures SameClient(s, Do(s, step), q)
  {
    StepKeeps(s, step);
    var k := At(s, q);
    match step {
      case AlarmOf(r, appetite) => FiringIsLocal(s, r, appetite, q);
      case PauseOf(r, pause) => assert Keeps(s, PauseSet(s, r, pause), q, k);
      case Add(r, delayMs) => AddingIsLocal(s, r, delayMs, q);
      case Remove(r) => k := RemovalIsLocal(s, r, q);
    }
    KeptIsSame(s, Do(s, step), q, k);
  }

  lemma {:induction false} FiredIsAt(s: State, r: Request, appetite: nat, k: nat, c: Controller)
    requires Inv(s) && Offered(s, AlarmOf(r, appetite)) && Survives(s, AlarmOf(r, appetite))
    requires var t := Fired(s, r, appetite);
             k < |s.buffers| && |t.buffers| == |s.buffers| && t.buffers[k].id == s.buffers[k].id
             && r in t.buffers[k].requests && t.buffers[k].requests[r] == c
    ensures var t := Fired(s, r, appetite);
            Has(t, r) && t.bufferOf[r] == s.bufferOf[r] + k - At(s, r) && ClientOf(t, r).ctl == c
  {
    var t := Fired(s, r, appetite);
    StepKeeps(s, AlarmOf(r, appetite));
    ClientAt(t, k, r, c);
    assert Serves(t, k, r) && Chained(s, k) && Chained(s, At(s, r));
    MapsAgree(s, r);
  }

  /** An alarm plays the client's buffer. If the client does not pause and the buffer gets no more tags, it goes
      on to the start of the next buffer, with everything it was sent so far. */
  lemma {:induction false} FiresExactly(s: State, r: Request, appetite: nat)
    requires Inv(s) && Offered(s, AlarmOf(r, appetite)) && Survives(s, AlarmOf(r, appetite))
    ensures var t, b, p := Fired(s, r, appetite), s.buffers[At(s, r)], ClientOf(s, r);
            var q := Play(b, p.(ctl := p.ctl.(armed := false)), appetite);
            var stays := q.ctl.pauses > 0 || b.active;
            && Has(t, r) && t.sent[r] == q.events && t.start[r] == s.start[r]
            && t.bufferOf[r] == s.bufferOf[r] + (if stays then 0 else 1)
            && ClientOf(t, r).ctl == if stays then q.ctl else Controller(0, 0, true, false, -1)
  {
    var k, p := At(s, r), ClientOf(s, r);
    var q := Play(s.buffers[k], p.(ctl := p.ctl.(armed := false)), appetite);
    if q.ctl.pauses > 0 || s.buffers[k].active {
      FiredIsAt(s, r, appetite, k, q.ctl);
    } else {
      HandedOnIs(s, k, r, q, s.start[r]);
      FiredIsAt(s, r, appetite, k + 1, NewController(0));
    }
  }

  /** Pausing counts up and disarms; resuming counts down and arms at 0. Nothing else changes for the client. */
  lemma {:induction false} PauseExactly(s: State, r: Request, pause: bool)
    requires Inv(s) && Offered(s, PauseOf(r, pause))
    ensures var t, c := PauseSet(s, r, pause), ClientOf(s, r).ctl;
            && Has(t, r) && t.bufferOf[r] == s.bufferOf[r] && t.sent[r] == s.sent[r]
            && ClientOf(t, r).ctl == Controller(c.index, if pause then c.pauses + 1 else c.pauses - 1,
                                                !pause && c.pauses == 1, c.bootstrapped, c.firstTs)
  {
    var t := PauseSet(s, r, pause);
    PauseKeeps(s, r, pause);
    MapsAgree(s, r);
    ClientAt(t, At(s, r), r, t.buffers[At(s, r)].requests[r]);
  }

  /** A client that is removed is gone, and with it the buffer, if that is closed and the client was its last. */
  lemma {:induction false} RemovalExactly(s: State, r: Request)
    requires Inv(s) && Has(s, r)
    ensures var t, b := Removed(s, r), s.buffers[At(s, r)];
            && !Has(t, r) && r !in t.bufferOf
            && |t.buffers| == |s.buffers| - (if b.closed && forall q :: q in b.requests ==> q == r then 1 else 0)
  {
    RemoveKeeps(s, r);
    MapsAgree(Removed(s, r), r);
    var b := s.buffers[At(s, r)];
    assert b.requests - {r} == map[] <==> forall q :: q in b.requests ==> q == r by {
      if forall q :: q in b.requests ==> q == r {
        assert (b.requests - {r}).Keys == {};
      } else {
        var q :| q in b.requests && q != r;
        assert q in b.requests - {r};
      }
    }
  }

  /** The buffers but the first hold more than twice the size of a buffer. */
  predicate NeedsRoom(s: State)
    requires s.buffers != []
  {
    BufferedMs(s.buffers[1..]) > 2 * s.bufferSizeMs
  }

  /** What a rotation makes of a buffer: it gets no more tags and, if it was the last, its clients that are not
      paused are armed. If room is needed the first is emptied and its clients are stopped. */
  predicate Turned(s: State, k: nat, c: Buffer)
    requires k < |s.buffers|
  {
    var b := s.buffers[k];
    && c.id == b.id && c.base == b.base && !c.active && c.requests.Keys == b.requests.Keys
    && if k == 0 && NeedsRoom(s) then
         && c.closed && c.media == [] && c.info == NoInfo && c.firstTs == -1
         && forall q :: q in b.requests ==> c.requests[q] == b.requests[q].(armed := false)
       else
         && c.closed == b.closed && c.media == b.media && c.info == b.info && c.firstTs == b.firstTs
         && forall q :: q in b.requests ==>
              c.requests[q] == b.requests[q].(armed := b.requests[q].armed
                                                       || (k == |s.buffers| - 1 && b.requests[q].pauses == 0))
  }

  /** How many buffers go: the first, if room is needed and it has no client. */
  function Gone(s: State): nat
    requires s.buffers != []
  {
    if NeedsRoom(s) && s.buffers[0].requests == map[] then 1 else 0
  }

  lemma {:induction false} RoomIsNeeded(s: State)
    requires Inv(s)
    ensures Overgrown(StartBuffer(s)) <==> NeedsRoom(s)
    ensures NeedsRoom(s) ==> |s.buffers| >= 2
  {
    var t := StartBuffer(s);
    StartBuffersNothing(s);
    BufferedFromFront(s.buffers);
    assert SizeMs(t.buffers[0]) == SizeMs(s.buffers[0]);
    if |s.buffers| == 1 { assert s.buffers[1..] == []; }
  }

  /** Buffer `k` between the eviction and the waking. */
  function Passed(s: State, k: nat): Buffer
    requires k < |s.buffers|
  {
    if k == 0 && NeedsRoom(s) then Closed(StartBuffer(s).buffers[0]) else StartBuffer(s).buffers[k]
  }

  lemma {:induction false} RoomAre(s: State, k: nat)
    requires Inv(s) && Gone(s) <= k < |s.buffers|
    ensures var u := MadeRoom(StartBuffer(s));
            && |u.buffers| == |s.buffers| + 1 - Gone(s) >= 2
            && u.buffers[k - Gone(s)] == Passed(s, k)
  {
    RoomIsNeeded(s);
    assert StartBuffer(s).buffers[0].requests == s.buffers[0].requests;
  }

  lemma {:induction false} PassedTurns(s: State, k: nat)
    requires k < |s.buffers| && (s.buffers[k].active ==> k == |s.buffers| - 1) && (NeedsRoom(s) ==> |s.buffers| >= 2)
    ensures Turned(s, k, if k == |s.buffers| - 1 then NotifyAll(Passed(s, k)) else Passed(s, k))
  {
  }

  lemma {:induction false} RotatedAre(s: State, j: nat)
    requires Inv(s) && j < |s.buffers| - Gone(s)
    ensures |Rotate(s).buffers| == |s.buffers| + 1 - Gone(s) && Turned(s, j + Gone(s), Rotate(s).buffers[j])
  {
    var k := j + Gone(s);
    RoomIsNeeded(s);
    assert Chained(s, k);
    PassedTurns(s, k);
    RoomAre(s, k);
    assert Rotate(s).buffers[j] == if k == |s.buffers| - 1 then NotifyAll(Passed(s, k)) else Passed(s, k);
  }

  lemma {:induction false} RotatedHistories(s: State)
    requires Inv(s)
    ensures var t := Rotate(s);
            && t.sent.Keys == s.sent.Keys && t.start == s.start && t.bufferOf == s.bufferOf
            && forall q :: q in s.sent ==>
                 t.sent[q] == s.sent[q] + if NeedsRoom(s) && q in s.buffers[0].requests then [Eos] else []
  {
    RoomIsNeeded(s);
    assert StartBuffer(s).buffers[0].requests == s.buffers[0].requests;
  }

  lemma {:induction false} NewBufferIs(s: State)
    requires Inv(s)
    ensures var t, last := Rotate(s), s.buffers[|s.buffers| - 1];
            t.buffers[|t.buffers| - 1]
            == Buffer(last.id + 1, last.base + |last.media|, [], last.info, map[], -1, true, false)
  {
    RoomIsNeeded(s);
    assert StartBuffer(s).buffers[0].requests == s.buffers[0].requests;
  }

  /** A rotation, buffer by buffer: the first goes or is closed when the others hold enough, with an end of stream
      to its clients and to nobody else, and an empty buffer comes last. */
  lemma {:induction false} RotatesExactly(s: State)
    requires Inv(s)
    ensures var t, gone, last := Rotate(s), Gone(s), s.buffers[|s.buffers| - 1];
            && |t.buffers| == |s.buffers| + 1 - gone
            && (forall j :: 0 <= j < |s.buffers| - gone ==> Turned(s, j + gone, t.buffers[j]))
            && t.buffers[|t.buffers| - 1]
               == Buffer(last.id + 1, last.base + |last.media|, [], last.info, map[], -1, true, false)
            && t.sent.Keys == s.sent.Keys
            && (forall q :: q in s.sent ==>
                  t.sent[q] == s.sent[q] + if NeedsRoom(s) && q in s.buffers[0].requests then [Eos] else [])
            && t.start == s.start && t.bufferOf == s.bufferOf
  {
    RotatedHistories(s);
    NewBufferIs(s);
    RoomIsNeeded(s);
    RotatedAre(s, |s.buffers| - 1 - Gone(s));
    forall j | 0 <= j < |s.buffers| - Gone(s) ensures Turned(s, j + Gone(s), Rotate(s).buffers[j]) {
      RotatedAre(s, j);
    }
  }

  /** A stored tag is preceded by a rotation exactly when it is a media info or the last buffer is full. */
  lemma {:induction false} ReceivedExactly(s: State, tag: Tag)
    requires Exists(s)
    ensures var media := s.buffers[|s.buffers| - 1].media;
            Receiving(s, tag) == if tag.kind.MediaInfo? || (media != [] && media[|media| - 1].ts > s.bufferSizeMs)
                                 then Rotate(s) else s
  {
  }

  /** A media tag is taken exactly at the time the buffer began with, if it is to be its first, and otherwise less
      than a second after the one before, but not before it; a new buffer takes any. */
  lemma {:induction false} InTimeExactly(s: State, tag: Tag, ts: int)
    requires Inv(s) && tag.kind.Flv?
    ensures var b := s.buffers[|s.buffers| - 1];
            var n := |b.media|;
            InTime(s, tag, ts) <==>
              || (n > 0 && b.media[n - 1].ts > s.bufferSizeMs)
              || (n == 0 && (b.firstTs == -1 || ts == b.firstTs))
              || (n > 0 && b.firstTs != -1 && 0 <= ts - (b.firstTs + b.media[n - 1].ts) < 1000)
              || (n > 0 && b.firstTs == -1 && -1000 < b.media[n - 1].ts <= 0)
  {
    NewBufferIs(s);
  }

  /** The tag goes to the end of the last buffer and arms its clients that are not paused; a media info only
      replaces that of the buffer. */
  lemma {:induction false} AppendsExactly(s: State, tag: Tag, ts: int)
    requires s.buffers != [] && Stored(tag)
    ensures var t, n := Append(s, tag, ts), |s.buffers| - 1;
            && |t.buffers| == n + 1 && t.buffers[..n] == s.buffers[..n]
            && t.sent == s.sent && t.start == s.start && t.bufferOf == s.bufferOf
            && var (b, c) := (s.buffers[n], t.buffers[n]);
               && c.id == b.id && c.base == b.base && c.active == b.active && c.closed == b.closed
               && c.firstTs == (if b.firstTs == -1 then ts else b.firstTs) && c.requests.Keys == b.requests.Keys
               && (tag.kind.Flv? ==>
                     && c.media == b.media + [Stamped(tag, ts - c.firstTs)] && c.info == b.info
                     && forall q :: q in b.requests ==>
                          c.requests[q] == b.requests[q].(armed := b.requests[q].armed || b.requests[q].pauses == 0))
               && (tag.kind.MediaInfo? ==> c.media == b.media && c.requests == b.requests)
  {
  }
}
