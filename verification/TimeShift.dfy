/**
 Time shift: a rotating list of media buffers, the last of which receives the live tags, and clients that
 are played out of a buffer and handed to the next one at its end. Every step is atomic.
 */
module TimeShift {
  import opened Options

  type Request = int

  datatype Info = NoInfo | Info(content: int, pausable: bool, seekable: bool, durationMs: int)

  datatype Kind = Flv | MediaInfo(info: Info) | EndOfStream | Other

  /** `resync`: a video tag that a client can start on. */
  datatype Tag = Tag(kind: Kind, resync: bool, payload: int)

  /** A buffered tag and its time from the start of the buffer. */
  datatype Stamped = Stamped(tag: Tag, ts: int)

  /** What a client is sent. */
  datatype Event = SourceStarted | Announced(info: Info) | Media(tag: Tag, ts: int) | Eos

  datatype Controller = Controller(index: nat, pauses: nat, armed: bool, bootstrapped: bool, firstTs: int)

  /** `id` stands for the buffer's identity and `base` counts the media tags taken in before its first. */
  datatype Buffer = Buffer(id: nat, base: nat, media: seq<Stamped>, info: Info, requests: map<Request, Controller>,
                           firstTs: int, active: bool, closed: bool)

  /** A media tag and the media info in force for it. */
  datatype Frame = Frame(tag: Tag, info: Option<Info>)

  /** The element. `sent`, `start` and `taken` are histories: what each client was sent, the number of
      the first media tag it was to be sent, and the media tags taken in. */
  datatype State = State(bufferSizeMs: int, buffers: seq<Buffer>, bufferOf: map<Request, nat>,
                         sent: map<Request, seq<Event>>, start: map<Request, nat>, taken: seq<Frame>)

  // ---------- what a client makes of its events ----------

  /** The media tags up to the end of stream with the info announced for each, the last time since the
      source started, and whether time stayed at or after 0 and never went back between two such starts. */
  datatype Log = Log(frames: seq<Frame>, info: Option<Info>, clock: int, steady: bool, ended: bool)

  function Heard(log: Log, e: Event): Log {
    if log.ended then log
    else
      match e
      case SourceStarted => log.(info := None, clock := 0)
      case Announced(info) => log.(info := Some(info))
      case Media(tag, ts) =>
        log.(frames := log.frames + [Frame(tag, log.info)], clock := ts, steady := log.steady && log.clock <= ts)
      case Eos => log.(ended := true)
  }

  function Read(events: seq<Event>): Log {
    if events == [] then Log([], None, 0, true, false)
    else Heard(Read(events[..|events| - 1]), events[|events| - 1])
  }

  lemma {:induction false} ReadOne(events: seq<Event>, e: Event)
    ensures Read(events + [e]) == Heard(Read(events), e)
  {
    assert (events + [e])[..|events|] == events;
  }

  // ---------- a buffer and its clients ----------

  function SizeMs(b: Buffer): int {
    if b.media == [] then 0 else b.media[|b.media| - 1].ts
  }

  function Notified(c: Controller): Controller {
    if c.pauses == 0 then c.(armed := true) else c
  }

  function NotifyAll(b: Buffer): Buffer {
    b.(requests := map r | r in b.requests :: Notified(b.requests[r]))
  }

  /** What playing does to a client. */
  datatype Progress = Progress(ctl: Controller, events: seq<Event>)

  /** One media tag, after the bootstrap if it is the first. */
  function SendNext(b: Buffer, p: Progress): Progress
    requires p.ctl.index < |b.media|
  {
    var m := b.media[p.ctl.index];
    if p.ctl.bootstrapped then
      Progress(p.ctl.(index := p.ctl.index + 1), p.events + [Media(m.tag, m.ts - p.ctl.firstTs)])
    else
      Progress(p.ctl.(index := p.ctl.index + 1, bootstrapped := true, firstTs := m.ts),
               p.events + [SourceStarted] + [Announced(b.info)] + [Media(m.tag, 0)])
  }

  function Paused(c: Controller): Controller {
    c.(pauses := c.pauses + 1, armed := false)
  }

  /** The rest of the loop over the tags. The client pauses on its `appetite`-th tag, or never when `appetite` is 0. */
  function Play(b: Buffer, p: Progress, appetite: nat): Progress
    decreases |b.media| - p.ctl.index
  {
    if p.ctl.pauses > 0 || p.ctl.index >= |b.media| then p
    else
      var q := SendNext(b, p);
      if appetite == 1 then Play(b, q.(ctl := Paused(q.ctl)), 0)
      else Play(b, q, if appetite == 0 then 0 else appetite - 1)
  }

  predicate Startable(m: Stamped, ms: int, onKeyframe: bool) {
    m.ts >= ms && (!onKeyframe || m.tag.resync)
  }

  function FirstIndex(media: seq<Stamped>, from: nat, ms: int, onKeyframe: bool): (i: nat)
    requires from <= |media|
    ensures from <= i <= |media|
    ensures forall j :: from <= j < i ==> !Startable(media[j], ms, onKeyframe)
    ensures i < |media| ==> Startable(media[i], ms, onKeyframe)
    decreases |media| - from
  {
    if from == |media| || Startable(media[from], ms, onKeyframe) then from
    else FirstIndex(media, from + 1, ms, onKeyframe)
  }

  function NewController(index: nat): Controller {
    Controller(index, 0, true, false, -1)
  }

  // ---------- the list of buffers ----------

  function BufferedMs(buffers: seq<Buffer>): int {
    if buffers == [] then 0 else BufferedMs(buffers[..|buffers| - 1]) + SizeMs(buffers[|buffers| - 1])
  }

  /** The buffer a delay falls in, and the delay left in it. */
  datatype Slot = Slot(index: nat, delayMs: int)

  /** The search through `buffers` from the last to the first. */
  function FindSlot(buffers: seq<Buffer>, delayMs: int): (slot: Option<Slot>)
    ensures slot.Some? ==> slot.value.index < |buffers|
  {
    if buffers == [] then None
    else
      var last := |buffers| - 1;
      if SizeMs(buffers[last]) > delayMs then Some(Slot(last, delayMs))
      else FindSlot(buffers[..last], delayMs - SizeMs(buffers[last]))
  }

  /** The position of the buffer, or the number of buffers. */
  function Position(buffers: seq<Buffer>, id: nat): (k: nat)
    ensures k <= |buffers|
    ensures k < |buffers| ==> buffers[k].id == id
  {
    if buffers == [] || buffers[0].id == id then 0 else 1 + Position(buffers[1..], id)
  }

  // ---------- the steps ----------

  /** Client `r` is in buffer `k` with this controller and these events sent, starting at media tag `first`. */
  function Place(s: State, k: nat, r: Request, p: Progress, first: nat): State
    requires k < |s.buffers|
  {
    var b := s.buffers[k];
    s.(buffers := s.buffers[k := b.(requests := b.requests[r := p.ctl])], bufferOf := s.bufferOf[r := b.id],
       sent := s.sent[r := p.events], start := s.start[r := first])
  }

  function Drop(s: State, k: nat, r: Request): State
    requires k < |s.buffers|
  {
    var b := s.buffers[k];
    s.(buffers := s.buffers[k := b.(requests := b.requests - {r})], bufferOf := s.bufferOf - {r})
  }

  predicate Has(s: State, r: Request) {
    && r in s.bufferOf && r in s.sent && r in s.start
    && Position(s.buffers, s.bufferOf[r]) < |s.buffers|
    && r in s.buffers[Position(s.buffers, s.bufferOf[r])].requests
  }

  function At(s: State, r: Request): (k: nat)
    requires Has(s, r)
    ensures k < |s.buffers| && r in s.buffers[k].requests
  {
    Position(s.buffers, s.bufferOf[r])
  }

  function ClientOf(s: State, r: Request): Progress
    requires Has(s, r)
  {
    Progress(s.buffers[At(s, r)].requests[r], s.sent[r])
  }

  /** The client starts on the first tag at or after the delay that it can start on. */
  function Entered(s: State, slot: Slot, r: Request): State
    requires slot.index < |s.buffers|
  {
    var b := s.buffers[slot.index];
    var i := FirstIndex(b.media, 0, SizeMs(b) - slot.delayMs, true);
    Place(s, slot.index, r, Progress(NewController(i), []), b.base + i)
  }

  function Added(s: State, r: Request, delayMs: int): State
    requires delayMs >= 0
  {
    match FindSlot(s.buffers, delayMs)
    case None => s
    case Some(slot) => Entered(s, slot, r)
  }

  function Removed(s: State, r: Request): State
    requires Has(s, r)
  {
    var k := At(s, r);
    var t := Drop(s, k, r);
    if t.buffers[k].requests == map[] && t.buffers[k].closed
    then t.(buffers := t.buffers[..k] + t.buffers[k + 1..])
    else t
  }

  function PauseSet(s: State, r: Request, pause: bool): State
    requires Has(s, r) && (pause || ClientOf(s, r).ctl.pauses > 0)
  {
    var p := ClientOf(s, r);
    var c := if pause then Paused(p.ctl)
             else if p.ctl.pauses == 1 then p.ctl.(pauses := 0, armed := true)
             else p.ctl.(pauses := p.ctl.pauses - 1, armed := false);
    Place(s, At(s, r), r, p.(ctl := c), s.start[r])
  }

  /** The client has been sent the whole of buffer `k`, which gets no more tags: the next one takes it. */
  function HandedOn(s: State, k: nat, r: Request, p: Progress, first: nat): State
    requires k + 1 < |s.buffers|
  {
    var i := FirstIndex(s.buffers[k + 1].media, 0, 0, false);
    Place(Drop(s, k, r), k + 1, r, Progress(NewController(i), p.events), first)
  }

  /** The client's alarm: it sends tags until the client pauses or the buffer ends. */
  function Fired(s: State, r: Request, appetite: nat): State
    requires Has(s, r) && CanMoveOn(s, r)
  {
    var k, p := At(s, r), ClientOf(s, r);
    var q := Play(s.buffers[k], p.(ctl := p.ctl.(armed := false)), appetite);
    if q.ctl.pauses > 0 || s.buffers[k].active then Place(s, k, r, q, s.start[r])
    else HandedOn(s, k, r, q, s.start[r])
  }

  /** A passive buffer is followed by another; otherwise the process ends when a client reaches its end. */
  predicate CanMoveOn(s: State, r: Request)
    requires Has(s, r)
  {
    s.buffers[At(s, r)].active || At(s, r) + 1 < |s.buffers|
  }

  /** The last buffer becomes passive and a new one follows it. */
  function StartBuffer(s: State): State
    requires s.buffers != []
  {
    var last := |s.buffers| - 1;
    var b := s.buffers[last];
    s.(buffers := s.buffers[last := b.(active := false)]
                  + [Buffer(b.id + 1, b.base + |b.media|, [], b.info, map[], -1, true, false)])
  }

  function Closed(b: Buffer): Buffer {
    b.(media := [], firstTs := -1, info := NoInfo, closed := true,
       requests := map r | r in b.requests :: b.requests[r].(armed := false))
  }

  /** The first buffer is closed, its clients are sent the end of the stream, and it goes unless one of
      them is left in it. */
  function CloseFront(s: State): State
    requires s.buffers != []
  {
    var b := s.buffers[0];
    if b.requests == map[] then s.(buffers := s.buffers[1..])
    else s.(buffers := s.buffers[0 := Closed(b)],
            sent := map r | r in s.sent :: if r in b.requests then s.sent[r] + [Eos] else s.sent[r])
  }

  predicate Overgrown(s: State)
    requires s.buffers != []
  {
    BufferedMs(s.buffers) - SizeMs(s.buffers[0]) > 2 * s.bufferSizeMs
  }

  function WakePrevious(s: State): State
    requires |s.buffers| >= 2
  {
    var k := |s.buffers| - 2;
    s.(buffers := s.buffers[k := NotifyAll(s.buffers[k])])
  }

  predicate Rotates(s: State, tag: Tag)
    requires s.buffers != []
  {
    SizeMs(s.buffers[|s.buffers| - 1]) > s.bufferSizeMs || tag.kind.MediaInfo?
  }

  /** The only other buffer of a new one is never closed. */
  lemma {:induction false} TwoBuffersStay(s: State)
    requires |s.buffers| == 2 && s.bufferSizeMs >= 0 && s.buffers[1].media == []
    ensures !Overgrown(s)
  {
    assert s.buffers[..1][..0] == [];
    assert BufferedMs(s.buffers[..1]) == SizeMs(s.buffers[0]);
  }

  function MadeRoom(s: State): State
    requires s.buffers != []
  {
    if Overgrown(s) then CloseFront(s) else s
  }

  function Rotate(s: State): (t: State)
    requires s.buffers != [] && s.bufferSizeMs >= 0
    ensures |t.buffers| >= 2
  {
    var t := StartBuffer(s);
    assert |t.buffers| == 2 ==> !Overgrown(t) by {
      if |t.buffers| == 2 { TwoBuffersStay(t); }
    }
    WakePrevious(MadeRoom(t))
  }

  /** The element with the buffer that is to take the tag. */
  function Receiving(s: State, tag: Tag): (t: State)
    requires s.buffers != [] && s.bufferSizeMs >= 0
    ensures t.buffers != []
  {
    if Rotates(s, tag) then Rotate(s) else s
  }

  function TimeShifted(info: Info): Info {
    match info
    case NoInfo => NoInfo
    case Info(content, _, _, _) => Info(content, true, false, 0)
  }

  /** The start of the buffer's time, once a tag has come at `ts`. */
  function StartTs(b: Buffer, ts: int): int {
    if b.firstTs == -1 then ts else b.firstTs
  }

  /** The stream times the buffer accepts; any other ends the process. */
  predicate InStep(b: Buffer, tag: Tag, ts: int) {
    || tag.kind.MediaInfo?
    || if b.media == [] then ts == StartTs(b, ts) else 0 <= ts - StartTs(b, ts) - SizeMs(b) < 1000
  }

  /** The last buffer takes the tag. */
  function Append(s: State, tag: Tag, ts: int): State
    requires s.buffers != []
  {
    var last := |s.buffers| - 1;
    var b := s.buffers[last].(firstTs := StartTs(s.buffers[last], ts));
    match tag.kind
    case MediaInfo(info) => s.(buffers := s.buffers[last := b.(info := TimeShifted(info))])
    case _ => s.(buffers := s.buffers[last := NotifyAll(b.(media := b.media + [Stamped(tag, ts - b.firstTs)]))],
                 taken := s.taken + [Frame(tag, Some(b.info))])
  }

  predicate Stored(tag: Tag) {
    tag.kind.Flv? || tag.kind.MediaInfo?
  }

  function Ingested(s: State, tag: Tag, ts: int): State
    requires s.buffers != [] && s.bufferSizeMs >= 0
  {
    if Stored(tag) then Append(Receiving(s, tag), tag, ts) else s
  }

  datatype Step = Ingest(tag: Tag, ts: int) | AlarmOf(r: Request, appetite: nat) | PauseOf(r: Request, pause: bool)
                | Add(r: Request, delayMs: int) | Remove(r: Request)

  predicate Exists(s: State) {
    s.buffers != [] && s.bufferSizeMs >= 0
  }

  /** The element's surroundings may take this step. */
  predicate Offered(s: State, step: Step)
    requires Exists(s)
  {
    match step
    case Ingest(_, _) => true
    case AlarmOf(r, _) => Has(s, r) && ClientOf(s, r).ctl.armed
    case PauseOf(r, pause) => Has(s, r) && (pause || ClientOf(s, r).ctl.pauses > 0)
    case Add(r, delayMs) => r !in s.bufferOf && delayMs >= 0
    case Remove(r) => Has(s, r)
  }

  /** The stream time of the tag passes the checks of the buffer that takes it. */
  predicate InTime(s: State, tag: Tag, ts: int)
    requires Exists(s)
  {
    Stored(tag) ==> var t := Receiving(s, tag); InStep(t.buffers[|t.buffers| - 1], tag, ts)
  }

  /** No check fails in the step; one that does ends the process. */
  predicate Survives(s: State, step: Step)
    requires Exists(s) && Offered(s, step)
  {
    match step
    case Ingest(tag, ts) => InTime(s, tag, ts)
    case AlarmOf(r, _) => CanMoveOn(s, r)
    case _ => true
  }

  function Do(s: State, step: Step): State
    requires Exists(s) && Offered(s, step) && Survives(s, step)
  {
    match step
    case Ingest(tag, ts) => Ingested(s, tag, ts)
    case AlarmOf(r, appetite) => Fired(s, r, appetite)
    case PauseOf(r, pause) => PauseSet(s, r, pause)
    case Add(r, delayMs) => Added(s, r, delayMs)
    case Remove(r) => Removed(s, r)
  }

  function Initial(bufferSizeMs: nat): State {
    State(bufferSizeMs, [Buffer(0, 0, [], NoInfo, map[], -1, true, false)], map[], map[], map[], [])
  }

  /** The state after the steps, those not offered being skipped, or `None` once a check fails. */
  function After(s: State, steps: seq<Step>): Option<State> {
    if steps == [] then Some(s)
    else
      match After(s, steps[..|steps| - 1])
      case None => None
      case Some(t) =>
        var step := steps[|steps| - 1];
        if !Exists(t) then None
        else if !Offered(t, step) then Some(t)
        else if !Survives(t, step) then None
        else Some(Do(t, step))
  }

  // ---------- what every run keeps ----------

  predicate BufferOk(b: Buffer) {
    && (b.media != [] ==> b.media[0].ts == 0)
    && (forall i, j :: 0 <= i < j < |b.media| ==> b.media[i].ts <= b.media[j].ts)
    && (b.closed ==> !b.active && b.media == [])
  }

  /** The buffer's media are the tags taken in from `base` on, under the buffer's one media info. */
  predicate Holds(b: Buffer, taken: seq<Frame>) {
    && b.base + |b.media| <= |taken|
    && forall i :: 0 <= i < |b.media| ==> taken[b.base + i] == Frame(b.media[i].tag, Some(b.info))
  }

  /** A buffer ends where the next one begins, and the last with the last tag taken in. */
  predicate Chained(s: State, k: nat)
    requires k < |s.buffers|
  {
    var b := s.buffers[k];
    && BufferOk(b) && Holds(b, s.taken)
    && (b.active <==> k == |s.buffers| - 1)
    && (b.closed ==> k == 0)
    && b.id == s.buffers[0].id + k
    && (!b.closed ==> b.base + |b.media| == if k + 1 < |s.buffers| then s.buffers[k + 1].base else |s.taken|)
  }

  ghost predicate Slice(log: Log, first: nat, taken: seq<Frame>) {
    && log.steady
    && exists n :: first <= n <= |taken| && log.frames == taken[first..n]
  }

  /** A client that was not sent the end of the stream has exactly the tags up to its index. */
  predicate ClientOk(b: Buffer, c: Controller, log: Log, first: nat, taken: seq<Frame>) {
    || log.ended
    || (&& !b.closed
        && c.index <= |b.media| && first <= b.base + c.index <= |taken|
        && log.frames == taken[first..b.base + c.index]
        && (c.bootstrapped ==>
              0 < c.index && log.info == Some(b.info) && log.clock == b.media[c.index - 1].ts - c.firstTs))
  }

  predicate Serves(s: State, k: nat, r: Request)
    requires k < |s.buffers| && r in s.buffers[k].requests
  {
    && r in s.bufferOf && s.bufferOf[r] == s.buffers[k].id
    && r in s.sent && r in s.start
    && ClientOk(s.buffers[k], s.buffers[k].requests[r], Read(s.sent[r]), s.start[r], s.taken)
  }

  ghost predicate InSome(s: State, r: Request) {
    exists k :: 0 <= k < |s.buffers| && r in s.buffers[k].requests
  }

  /** Buffers, clients and histories fit together. */
  ghost predicate Safe(s: State) {
    && Exists(s)
    && (forall k :: 0 <= k < |s.buffers| ==> Chained(s, k))
    && (forall k, r :: 0 <= k < |s.buffers| && r in s.buffers[k].requests ==> Serves(s, k, r))
    && (forall r :: r in s.bufferOf ==> InSome(s, r))
    && (forall r :: r in s.sent ==> r in s.start && Slice(Read(s.sent[r]), s.start[r], s.taken))
  }

  /** Not paused, the client is going to run, or there is nothing to send yet. */
  predicate Moving(b: Buffer, c: Controller) {
    b.closed || c.pauses > 0 || c.armed || (b.active && c.index >= |b.media|)
  }

  ghost predicate LiveBut(s: State, except: int) {
    forall k, r :: 0 <= k < |s.buffers| && k != except && r in s.buffers[k].requests ==>
      Moving(s.buffers[k], s.buffers[k].requests[r])
  }

  ghost predicate Inv(s: State) {
    Safe(s) && LiveBut(s, -1)
  }

  // ---------- one client ----------

  lemma {:induction false} PositionOf(s: State, k: nat)
    requires Safe(s) && k < |s.buffers|
    ensures Position(s.buffers, s.buffers[k].id) == k
  {
    forall j | 0 <= j < |s.buffers| ensures s.buffers[j].id == s.buffers[0].id + j {
      assert Chained(s, j);
    }
    PositionIs(s.buffers, s.buffers[0].id, k);
  }

  lemma {:induction false} PositionIs(buffers: seq<Buffer>, id: nat, k: nat)
    requires k < |buffers| && forall j :: 0 <= j < |buffers| ==> buffers[j].id == id + j
    ensures Position(buffers, id + k) == k
  {
    if k > 0 { PositionIs(buffers[1..], id + 1, k - 1); }
  }

  /** The element's map and the buffers' maps agree. */
  lemma {:induction false} MapsAgree(s: State, r: Request)
    requires Safe(s)
    ensures r in s.bufferOf <==> Has(s, r)
    ensures Has(s, r) ==> Serves(s, At(s, r), r)
    ensures forall k :: 0 <= k < |s.buffers| ==> (r in s.buffers[k].requests <==> Has(s, r) && At(s, r) == k)
  {
    forall k | 0 <= k < |s.buffers| && r in s.buffers[k].requests ensures Has(s, r) && At(s, r) == k {
      assert Serves(s, k, r);
      PositionOf(s, k);
    }
  }

  predicate SameButRequests(b: Buffer, c: Buffer) {
    c == b.(requests := c.requests)
  }

  lemma {:induction false} ChainStays(s: State, t: State)
    requires forall k :: 0 <= k < |s.buffers| ==> Chained(s, k)
    requires |t.buffers| == |s.buffers| && t.taken == s.taken
    requires forall k :: 0 <= k < |s.buffers| ==> SameButRequests(s.buffers[k], t.buffers[k])
    ensures forall k :: 0 <= k < |t.buffers| ==> Chained(t, k)
  {
    forall k | 0 <= k < |t.buffers| ensures Chained(t, k) {
      assert Chained(s, k) && SameButRequests(s.buffers[k], t.buffers[k]);
      assert k + 1 < |s.buffers| ==> SameButRequests(s.buffers[k + 1], t.buffers[k + 1]);
      assert SameButRequests(s.buffers[0], t.buffers[0]);
    }
  }

  lemma {:induction false} PlaceServesIt(s: State, k: nat, r: Request, p: Progress, first: nat)
    requires Safe(s) && k < |s.buffers|
    requires ClientOk(s.buffers[k], p.ctl, Read(p.events), first, s.taken)
    ensures Serves(Place(s, k, r, p, first), k, r)
  {
  }

  lemma {:induction false} PlaceServesOther(s: State, k: nat, r: Request, p: Progress, first: nat, j: nat, q: Request)
    requires Safe(s) && k < |s.buffers| && j < |s.buffers| && q != r && q in s.buffers[j].requests
    ensures Serves(Place(s, k, r, p, first), j, q)
  {
    assert Serves(s, j, q);
  }

  lemma {:induction false} PlaceServes(s: State, k: nat, r: Request, p: Progress, first: nat)
    requires Safe(s) && k < |s.buffers|
    requires r in s.bufferOf ==> Has(s, r) && At(s, r) == k
    requires ClientOk(s.buffers[k], p.ctl, Read(p.events), first, s.taken)
    ensures var t := Place(s, k, r, p, first);
            forall j, q :: 0 <= j < |t.buffers| && q in t.buffers[j].requests ==> Serves(t, j, q)
  {
    var t := Place(s, k, r, p, first);
    MapsAgree(s, r);
    forall j, q | 0 <= j < |t.buffers| && q in t.buffers[j].requests ensures Serves(t, j, q) {
      if q == r {
        PlaceServesIt(s, k, r, p, first);
      } else {
        PlaceServesOther(s, k, r, p, first, j, q);
      }
    }
  }

  lemma {:induction false} PlaceKeeps(s: State, k: nat, r: Request, p: Progress, first: nat)
    requires Safe(s) && k < |s.buffers|
    requires r in s.bufferOf ==> Has(s, r) && At(s, r) == k
    requires ClientOk(s.buffers[k], p.ctl, Read(p.events), first, s.taken) && Slice(Read(p.events), first, s.taken)
    ensures Safe(Place(s, k, r, p, first))
  {
    var t := Place(s, k, r, p, first);
    ChainStays(s, t);
    PlaceServes(s, k, r, p, first);
    forall q | q in t.bufferOf ensures InSome(t, q) {
      if q == r {
        assert q in t.buffers[k].requests;
      } else {
        var j :| 0 <= j < |s.buffers| && q in s.buffers[j].requests;
        assert q in t.buffers[j].requests;
      }
    }
  }

  lemma {:induction false} DropServes(s: State, r: Request)
    requires Safe(s) && Has(s, r)
    ensures var t := Drop(s, At(s, r), r);
            forall j, q :: 0 <= j < |t.buffers| && q in t.buffers[j].requests ==> Serves(t, j, q)
  {
    var t := Drop(s, At(s, r), r);
    MapsAgree(s, r);
    forall j, q | 0 <= j < |t.buffers| && q in t.buffers[j].requests ensures Serves(t, j, q) {
      assert q in s.buffers[j].requests && q != r;
      assert Serves(s, j, q);
    }
  }

  lemma {:induction false} DropKeeps(s: State, r: Request)
    requires Safe(s) && Has(s, r)
    ensures Safe(Drop(s, At(s, r), r))
  {
    var t := Drop(s, At(s, r), r);
    ChainStays(s, t);
    DropServes(s, r);
    forall q | q in t.bufferOf ensures InSome(t, q) {
      var j :| 0 <= j < |s.buffers| && q in s.buffers[j].requests;
      assert q in t.buffers[j].requests;
    }
  }

  ghost predicate ProgressOk(b: Buffer, p: Progress, first: nat, taken: seq<Frame>) {
    ClientOk(b, p.ctl, Read(p.events), first, taken) && Slice(Read(p.events), first, taken)
  }

  lemma {:induction false} MediaHeard(b: Buffer, c: Controller, log: Log, first: nat, taken: seq<Frame>, ts: int)
    requires BufferOk(b) && Holds(b, taken) && c.index < |b.media| && !log.ended
    requires ClientOk(b, c.(bootstrapped := false), log, first, taken) && Slice(log, first, taken)
    requires log.info == Some(b.info) && log.clock <= ts == b.media[c.index].ts - c.firstTs
    ensures var d, heard := c.(index := c.index + 1, bootstrapped := true), Heard(log, Media(b.media[c.index].tag, ts));
            ClientOk(b, d, heard, first, taken) && Slice(heard, first, taken)
  {
    var n := b.base + c.index;
    assert taken[first..n + 1] == taken[first..n] + [taken[n]];
    assert Heard(log, Media(b.media[c.index].tag, ts)).frames == taken[first..n + 1];
  }

  lemma {:induction false} BootstrapHeard(b: Buffer, p: Progress, first: nat, taken: seq<Frame>)
    requires !Read(p.events).ended && ProgressOk(b, p, first, taken)
    ensures var log := Read(p.events + [SourceStarted] + [Announced(b.info)]);
            log == Log(Read(p.events).frames, Some(b.info), 0, true, false)
  {
    ReadOne(p.events, SourceStarted);
    ReadOne(p.events + [SourceStarted], Announced(b.info));
  }

  lemma {:induction false} EndedStays(events: seq<Event>, more: seq<Event>)
    requires Read(events).ended
    ensures Read(events + more) == Read(events)
  {
    if more == [] {
      assert events + more == events;
    } else {
      var init, e := more[..|more| - 1], more[|more| - 1];
      EndedStays(events, init);
      assert events + more == events + init + [e];
      ReadOne(events + init, e);
    }
  }

  /** The controller and the events just before the next tag is sent. */
  function Ready(b: Buffer, p: Progress): Progress
    requires p.ctl.index < |b.media|
  {
    if p.ctl.bootstrapped then p
    else Progress(p.ctl.(bootstrapped := true, firstTs := b.media[p.ctl.index].ts),
                  p.events + [SourceStarted] + [Announced(b.info)])
  }

  /** Sending the next tag makes the client ready and adds the tag. */
  lemma {:induction false} SendNextAdds(b: Buffer, p: Progress)
    requires p.ctl.index < |b.media|
    ensures var q, m := Ready(b, p), b.media[p.ctl.index];
            && SendNext(b, p).ctl == q.ctl.(index := p.ctl.index + 1)
            && SendNext(b, p).events == q.events + [Media(m.tag, m.ts - q.ctl.firstTs)]
  {
  }

  lemma {:induction false} SendNextIs(b: Buffer, p: Progress)
    requires p.ctl.index < |b.media|
    ensures var q, m := Ready(b, p), b.media[p.ctl.index];
            Read(SendNext(b, p).events) == Heard(Read(q.events), Media(m.tag, m.ts - q.ctl.firstTs))
  {
    var m := b.media[p.ctl.index];
    SendNextAdds(b, p);
    ReadOne(Ready(b, p).events, Media(m.tag, m.ts - Ready(b, p).ctl.firstTs));
  }

  lemma {:induction false} ReadyEnded(b: Buffer, p: Progress)
    requires p.ctl.index < |b.media| && Read(p.events).ended
    ensures Read(Ready(b, p).events) == Read(p.events)
  {
    EndedStays(p.events, [SourceStarted] + [Announced(b.info)]);
    assert p.events + [SourceStarted] + [Announced(b.info)] == p.events + ([SourceStarted] + [Announced(b.info)]);
  }

  lemma {:induction false} SendNextKeeps(b: Buffer, p: Progress, first: nat, taken: seq<Frame>)
    requires BufferOk(b) && Holds(b, taken) && p.ctl.index < |b.media| && ProgressOk(b, p, first, taken)
    ensures ProgressOk(b, SendNext(b, p), first, taken)
    ensures Read(SendNext(b, p).events).ended == Read(p.events).ended
  {
    var q, m := Ready(b, p), b.media[p.ctl.index];
    SendNextAdds(b, p);
    SendNextIs(b, p);
    if Read(p.events).ended {
      ReadyEnded(b, p);
    } else {
      if !p.ctl.bootstrapped { BootstrapHeard(b, p, first, taken); }
      MediaHeard(b, q.ctl, Read(q.events), first, taken, m.ts - q.ctl.firstTs);
    }
  }

  /** Playing keeps the slice, arms nothing, and ends at a pause or at the end of the buffer. */
  lemma {:induction false} PlayEnds(b: Buffer, p: Progress, appetite: nat)
    ensures var q := Play(b, p, appetite);
            && (q.ctl.pauses > 0 || q.ctl.index >= |b.media|)
            && (appetite == 0 && p.ctl.pauses == 0 ==> q.ctl.pauses == 0)
    decreases |b.media| - p.ctl.index
  {
    if p.ctl.pauses == 0 && p.ctl.index < |b.media| {
      var q := SendNext(b, p);
      if appetite == 1 {
        PlayEnds(b, q.(ctl := Paused(q.ctl)), 0);
      } else {
        PlayEnds(b, q, if appetite == 0 then 0 else appetite - 1);
      }
    }
  }

  lemma {:induction false} PauseStaysOk(b: Buffer, p: Progress, first: nat, taken: seq<Frame>)
    requires ProgressOk(b, p, first, taken)
    ensures ProgressOk(b, p.(ctl := Paused(p.ctl)), first, taken)
  {
  }

  lemma {:induction false} PlayStaysOk(b: Buffer, p: Progress, appetite: nat, first: nat, taken: seq<Frame>)
    requires BufferOk(b) && Holds(b, taken) && ProgressOk(b, p, first, taken)
    ensures ProgressOk(b, Play(b, p, appetite), first, taken)
    ensures Read(Play(b, p, appetite).events).ended == Read(p.events).ended
    decreases |b.media| - p.ctl.index
  {
    if p.ctl.pauses == 0 && p.ctl.index < |b.media| {
      SendNextKeeps(b, p, first, taken);
      var q := SendNext(b, p);
      if appetite == 1 {
        PauseStaysOk(b, q, first, taken);
        PlayStaysOk(b, q.(ctl := Paused(q.ctl)), 0, first, taken);
      } else {
        PlayStaysOk(b, q, if appetite == 0 then 0 else appetite - 1, first, taken);
      }
    }
  }

  lemma {:induction false} PlayKeeps(b: Buffer, p: Progress, appetite: nat, first: nat, taken: seq<Frame>)
    requires BufferOk(b) && Holds(b, taken) && ProgressOk(b, p, first, taken)
    ensures var q := Play(b, p, appetite);
            && ProgressOk(b, q, first, taken)
            && (q.ctl.pauses > 0 || q.ctl.index >= |b.media|)
            && Read(q.events).ended == Read(p.events).ended
            && (appetite == 0 && p.ctl.pauses == 0 ==> q.ctl.pauses == 0)
  {
    PlayEnds(b, p, appetite);
    PlayStaysOk(b, p, appetite, first, taken);
  }

  lemma {:induction false} ServedOk(s: State, r: Request)
    requires Safe(s) && Has(s, r)
    ensures BufferOk(s.buffers[At(s, r)]) && Holds(s.buffers[At(s, r)], s.taken)
    ensures ProgressOk(s.buffers[At(s, r)], ClientOf(s, r), s.start[r], s.taken)
  {
    MapsAgree(s, r);
    assert Chained(s, At(s, r));
  }

  lemma {:induction false} PlaceMoves(s: State, k: nat, r: Request, p: Progress, first: nat)
    requires LiveBut(s, -1) && k < |s.buffers| && Moving(s.buffers[k], p.ctl)
    ensures LiveBut(Place(s, k, r, p, first), -1)
  {
    var t := Place(s, k, r, p, first);
    forall j, q | 0 <= j < |t.buffers| && q in t.buffers[j].requests
      ensures Moving(t.buffers[j], t.buffers[j].requests[q]) {
      if q != r || j != k { assert Moving(s.buffers[j], s.buffers[j].requests[q]); }
    }
  }

  lemma {:induction false} PlaceKeepsInv(s: State, k: nat, r: Request, p: Progress, first: nat)
    requires Inv(s) && k < |s.buffers|
    requires r in s.bufferOf ==> Has(s, r) && At(s, r) == k
    requires ProgressOk(s.buffers[k], p, first, s.taken) && Moving(s.buffers[k], p.ctl)
    ensures Inv(Place(s, k, r, p, first))
  {
    PlaceKeeps(s, k, r, p, first);
    PlaceMoves(s, k, r, p, first);
  }

  lemma {:induction false} DropMoves(s: State, k: nat, r: Request)
    requires LiveBut(s, -1) && k < |s.buffers|
    ensures LiveBut(Drop(s, k, r), -1)
  {
    var t := Drop(s, k, r);
    forall j, q | 0 <= j < |t.buffers| && q in t.buffers[j].requests
      ensures Moving(t.buffers[j], t.buffers[j].requests[q]) {
      assert q in s.buffers[j].requests && Moving(s.buffers[j], s.buffers[j].requests[q]);
    }
  }

  lemma {:induction false} DropKeepsInv(s: State, r: Request)
    requires Inv(s) && Has(s, r)
    ensures Inv(Drop(s, At(s, r), r))
  {
    DropKeeps(s, r);
    DropMoves(s, At(s, r), r);
  }

  lemma {:induction false} PauseKeeps(s: State, r: Request, pause: bool)
    requires Inv(s) && Offered(s, PauseOf(r, pause))
    ensures Inv(PauseSet(s, r, pause))
  {
    MapsAgree(s, r);
    ServedOk(s, r);
    var c := PauseSet(s, r, pause).buffers[At(s, r)].requests[r];
    PlaceKeepsInv(s, At(s, r), r, ClientOf(s, r).(ctl := c), s.start[r]);
  }

  lemma {:induction false} FromTheStart(s: State, k: nat)
    requires Safe(s) && k < |s.buffers|
    ensures FirstIndex(s.buffers[k].media, 0, 0, false) == 0
    ensures SizeMs(s.buffers[k]) >= 0
  {
    assert Chained(s, k);
  }

  lemma {:induction false} NextStart(s: State, k: nat, p: Progress, first: nat)
    requires Safe(s) && k + 1 < |s.buffers|
    requires ProgressOk(s.buffers[k], p, first, s.taken) && p.ctl.index >= |s.buffers[k].media|
    ensures ProgressOk(s.buffers[k + 1], Progress(NewController(0), p.events), first, s.taken)
  {
    assert Chained(s, k) && Chained(s, k + 1);
  }

  lemma {:induction false} HandedOnIs(s: State, k: nat, r: Request, p: Progress, first: nat)
    requires Safe(s) && k + 1 < |s.buffers|
    ensures HandedOn(s, k, r, p, first)
            == Place(Drop(s, k, r), k + 1, r, Progress(NewController(0), p.events), first)
  {
    FromTheStart(s, k + 1);
  }

  lemma {:induction false} PlayFinishedKeeps(s: State, r: Request, p: Progress)
    requires Inv(s) && Has(s, r) && At(s, r) + 1 < |s.buffers|
    requires ProgressOk(s.buffers[At(s, r)], p, s.start[r], s.taken) && p.ctl.index >= |s.buffers[At(s, r)].media|
    ensures Inv(HandedOn(s, At(s, r), r, p, s.start[r]))
  {
    var k := At(s, r);
    HandedOnIs(s, k, r, p, s.start[r]);
    NextStart(s, k, p, s.start[r]);
    DropKeepsInv(s, r);
    EntersNext(s, Drop(s, k, r), k + 1, r, Progress(NewController(0), p.events), s.start[r]);
  }

  lemma {:induction false} EntersNext(s: State, t: State, k: nat, r: Request, p: Progress, first: nat)
    requires Inv(t) && r !in t.bufferOf && k < |s.buffers| == |t.buffers| && t.taken == s.taken
    requires t.buffers[k] == s.buffers[k] && p.ctl.armed && ProgressOk(s.buffers[k], p, first, s.taken)
    ensures Inv(Place(t, k, r, p, first))
  {
    PlaceKeepsInv(t, k, r, p, first);
  }

  /** The check on a buffer's end never fails, so only stream times can end the process. */
  lemma {:induction false} NoCheckFails(s: State, step: Step)
    requires Safe(s) && Offered(s, step)
    ensures Survives(s, step) <==> (step.Ingest? ==> InTime(s, step.tag, step.ts))
  {
    if step.AlarmOf? {
      assert Chained(s, At(s, step.r));
    }
  }

  lemma {:induction false} FireKeeps(s: State, r: Request, appetite: nat)
    requires Inv(s) && Offered(s, AlarmOf(r, appetite)) && CanMoveOn(s, r)
    ensures Inv(Fired(s, r, appetite))
  {
    var k := At(s, r);
    ServedOk(s, r);
    MapsAgree(s, r);
    var p := ClientOf(s, r);
    var p' := p.(ctl := p.ctl.(armed := false));
    PlayKeeps(s.buffers[k], p', appetite, s.start[r], s.taken);
    var q := Play(s.buffers[k], p', appetite);
    if q.ctl.pauses > 0 || s.buffers[k].active {
      PlaceKeepsInv(s, k, r, q, s.start[r]);
    } else {
      PlayFinishedKeeps(s, r, q);
    }
  }

  /** A delay falls in a buffer exactly when it is shorter than all that is buffered, and then the
      delay left and the buffers after it make up the delay. */
  lemma {:induction false} FindSlotExactly(buffers: seq<Buffer>, delayMs: int)
    requires delayMs >= 0 && forall k :: 0 <= k < |buffers| ==> SizeMs(buffers[k]) >= 0
    ensures var slot := FindSlot(buffers, delayMs);
            && (slot.Some? <==> delayMs < BufferedMs(buffers))
            && (slot.Some? ==> && 0 <= slot.value.delayMs < SizeMs(buffers[slot.value.index])
                               && BufferedMs(buffers[..slot.value.index + 1]) - slot.value.delayMs
                                  == BufferedMs(buffers) - delayMs)
    ensures BufferedMs(buffers) >= 0
  {
    if buffers != [] {
      var init, last := buffers[..|buffers| - 1], buffers[|buffers| - 1];
      if SizeMs(last) > delayMs {
        assert buffers[..|buffers|] == buffers;
        FindSlotExactly(init, 0);
      } else {
        FindSlotExactly(init, delayMs - SizeMs(last));
        var slot := FindSlot(buffers, delayMs);
        assert slot.Some? ==> init[..slot.value.index + 1] == buffers[..slot.value.index + 1];
      }
    }
  }

  lemma {:induction false} SizesAreNonNegative(s: State)
    requires Safe(s)
    ensures forall k :: 0 <= k < |s.buffers| ==> SizeMs(s.buffers[k]) >= 0
  {
    forall k | 0 <= k < |s.buffers| ensures SizeMs(s.buffers[k]) >= 0 {
      FromTheStart(s, k);
    }
  }

  lemma {:induction false} NewClientOk(s: State, k: nat, i: nat)
    requires Safe(s) && k < |s.buffers| && !s.buffers[k].closed && i <= |s.buffers[k].media|
    ensures ProgressOk(s.buffers[k], Progress(NewController(i), []), s.buffers[k].base + i, s.taken)
  {
    var first := s.buffers[k].base + i;
    assert Chained(s, k);
    assert s.taken[first..first] == [];
  }

  lemma {:induction false} EnterKeeps(s: State, k: nat, r: Request, i: nat)
    requires Inv(s) && r !in s.bufferOf && k < |s.buffers| && !s.buffers[k].closed && i <= |s.buffers[k].media|
    ensures Inv(Place(s, k, r, Progress(NewController(i), []), s.buffers[k].base + i))
  {
    NewClientOk(s, k, i);
    PlaceKeepsInv(s, k, r, Progress(NewController(i), []), s.buffers[k].base + i);
  }

  /** A request is served from memory exactly when its delay is shorter than all that is buffered. */
  lemma {:induction false} ServedFromMemory(s: State, delayMs: int)
    requires Safe(s) && delayMs >= 0
    ensures FindSlot(s.buffers, delayMs).Some? <==> delayMs < BufferedMs(s.buffers)
  {
    SizesAreNonNegative(s);
    FindSlotExactly(s.buffers, delayMs);
  }

  lemma {:induction false} SlotIsOpen(s: State, delayMs: int)
    requires Safe(s) && delayMs >= 0 && FindSlot(s.buffers, delayMs).Some?
    ensures !s.buffers[FindSlot(s.buffers, delayMs).value.index].closed
  {
    SizesAreNonNegative(s);
    FindSlotExactly(s.buffers, delayMs);
    assert Chained(s, FindSlot(s.buffers, delayMs).value.index);
  }

  lemma {:induction false} AddKeeps(s: State, r: Request, delayMs: int)
    requires Inv(s) && r !in s.bufferOf && delayMs >= 0
    ensures Inv(Added(s, r, delayMs))
  {
    var found := FindSlot(s.buffers, delayMs);
    if found.Some? {
      SlotIsOpen(s, delayMs);
      var b := s.buffers[found.value.index];
      var i := FirstIndex(b.media, 0, SizeMs(b) - found.value.delayMs, true);
      EnterKeeps(s, found.value.index, r, i);
      assert Added(s, r, delayMs) == Place(s, found.value.index, r, Progress(NewController(i), []), b.base + i);
    }
  }

  lemma {:induction false} FrontGone(s: State, t: State)
    requires Safe(s) && |s.buffers| >= 2 && s.buffers[0].requests == map[] && t == s.(buffers := s.buffers[1..])
    ensures Safe(t)
    ensures forall e: int :: LiveBut(s, e) ==> LiveBut(t, e - 1)
  {
    forall j | 0 <= j < |t.buffers| ensures Chained(t, j) {
      assert Chained(s, j + 1) && Chained(s, 1);
    }
    forall j, q | 0 <= j < |t.buffers| && q in t.buffers[j].requests ensures Serves(t, j, q) {
      assert Serves(s, j + 1, q);
    }
    forall q | q in t.bufferOf ensures InSome(t, q) {
      var j :| 0 <= j < |s.buffers| && q in s.buffers[j].requests;
      assert q in t.buffers[j - 1].requests;
    }
  }

  lemma {:induction false} EmptyClosedIsFront(s: State, k: nat)
    requires Inv(s) && k < |s.buffers| && s.buffers[k].requests == map[] && s.buffers[k].closed
    ensures Inv(s.(buffers := s.buffers[..k] + s.buffers[k + 1..]))
  {
    assert Chained(s, k) && Chained(s, |s.buffers| - 1);
    assert s.buffers[..0] + s.buffers[1..] == s.buffers[1..];
    FrontGone(s, s.(buffers := s.buffers[1..]));
    assert LiveBut(s.(buffers := s.buffers[1..]), -2);
  }

  lemma {:induction false} RemoveKeeps(s: State, r: Request)
    requires Inv(s) && Has(s, r)
    ensures Inv(Removed(s, r))
  {
    var k := At(s, r);
    var t := Drop(s, k, r);
    DropKeepsInv(s, r);
    if t.buffers[k].requests == map[] && t.buffers[k].closed {
      EmptyClosedIsFront(t, k);
    }
  }

  // ---------- a tag comes in ----------

  lemma {:induction false} StartBufferChains(s: State, j: nat)
    requires Safe(s) && j <= |s.buffers|
    ensures Chained(StartBuffer(s), j)
  {
    assert Chained(s, |s.buffers| - 1) && Chained(s, 0);
    if j < |s.buffers| { assert Chained(s, j); }
  }

  lemma {:induction false} StartBufferServes(s: State, j: nat, q: Request)
    requires Safe(s) && j < |StartBuffer(s).buffers| && q in StartBuffer(s).buffers[j].requests
    ensures Serves(StartBuffer(s), j, q)
  {
    assert j < |s.buffers| && Serves(s, j, q);
  }

  lemma {:induction false} StartBufferKeeps(s: State)
    requires Inv(s)
    ensures var t := StartBuffer(s); Safe(t) && LiveBut(t, |t.buffers| - 2)
  {
    var t := StartBuffer(s);
    forall j | 0 <= j < |t.buffers| ensures Chained(t, j) {
      StartBufferChains(s, j);
    }
    forall j, q | 0 <= j < |t.buffers| && q in t.buffers[j].requests ensures Serves(t, j, q) {
      StartBufferServes(s, j, q);
    }
    forall q | q in t.bufferOf ensures InSome(t, q) {
      var j :| 0 <= j < |s.buffers| && q in s.buffers[j].requests;
      assert q in t.buffers[j].requests;
    }
  }

  lemma {:induction false} EosHeard(s: State, r: Request)
    requires Safe(s) && r in s.sent
    ensures Read(s.sent[r] + [Eos]).ended
    ensures Slice(Read(s.sent[r] + [Eos]), s.start[r], s.taken)
  {
    ReadOne(s.sent[r], Eos);
  }

  lemma {:induction false} CloseKeepsSafe(s: State)
    requires Safe(s) && |s.buffers| >= 2 && s.buffers[0].requests != map[]
    ensures Safe(CloseFront(s))
  {
    var t := CloseFront(s);
    forall j | 0 <= j < |t.buffers| ensures Chained(t, j) {
      assert Chained(s, j) && Chained(s, 0);
    }
    forall j, q | 0 <= j < |t.buffers| && q in t.buffers[j].requests ensures Serves(t, j, q) {
      assert q in s.buffers[j].requests && Serves(s, j, q);
      MapsAgree(s, q);
      EosHeard(s, q);
    }
    forall q | q in t.bufferOf ensures InSome(t, q) {
      var j :| 0 <= j < |s.buffers| && q in s.buffers[j].requests;
      assert q in t.buffers[j].requests;
    }
    forall q | q in t.sent ensures q in t.start && Slice(Read(t.sent[q]), t.start[q], t.taken) {
      EosHeard(s, q);
    }
  }

  lemma {:induction false} CloseFrontKeeps(s: State)
    requires Safe(s) && |s.buffers| >= 3 && LiveBut(s, |s.buffers| - 2)
    ensures var t := CloseFront(s); Safe(t) && |t.buffers| >= 2 && LiveBut(t, |t.buffers| - 2)
  {
    var t := CloseFront(s);
    if s.buffers[0].requests == map[] {
      FrontGone(s, t);
    } else {
      CloseKeepsSafe(s);
      forall j, q | 0 <= j < |t.buffers| && j != |t.buffers| - 2 && q in t.buffers[j].requests
        ensures Moving(t.buffers[j], t.buffers[j].requests[q])
      {
        assert Moving(s.buffers[j], s.buffers[j].requests[q]);
      }
    }
  }

  lemma {:induction false} NotifyKeeps(s: State, k: nat)
    requires Safe(s) && k < |s.buffers| && LiveBut(s, k)
    ensures Inv(s.(buffers := s.buffers[k := NotifyAll(s.buffers[k])]))
  {
    var t := s.(buffers := s.buffers[k := NotifyAll(s.buffers[k])]);
    ChainStays(s, t);
    forall j, q | 0 <= j < |t.buffers| && q in t.buffers[j].requests
      ensures Serves(t, j, q) && Moving(t.buffers[j], t.buffers[j].requests[q])
    {
      assert q in s.buffers[j].requests && Serves(s, j, q);
      if j != k { assert Moving(s.buffers[j], s.buffers[j].requests[q]); }
    }
    forall q | q in t.bufferOf ensures InSome(t, q) {
      var j :| 0 <= j < |s.buffers| && q in s.buffers[j].requests;
      assert q in t.buffers[j].requests;
    }
  }

  lemma {:induction false} RoomKeeps(s: State)
    requires Safe(s) && LiveBut(s, |s.buffers| - 2) && |s.buffers| >= 2 && (Overgrown(s) ==> |s.buffers| >= 3)
    ensures var t := MadeRoom(s); Safe(t) && |t.buffers| >= 2 && LiveBut(t, |t.buffers| - 2)
  {
    if Overgrown(s) {
      CloseFrontKeeps(s);
    }
  }

  lemma {:induction false} RotateKeeps(s: State)
    requires Inv(s)
    ensures Inv(Rotate(s))
  {
    var t := StartBuffer(s);
    StartBufferKeeps(s);
    if |t.buffers| == 2 {
      TwoBuffersStay(t);
    }
    RoomKeeps(t);
    NotifyKeeps(MadeRoom(t), |MadeRoom(t).buffers| - 2);
  }

  lemma {:induction false} NewBufferIsEmpty(s: State)
    requires Exists(s)
    ensures var t := Rotate(s); t.buffers[|t.buffers| - 1].media == []
  {
    var t := StartBuffer(s);
    if |t.buffers| == 2 {
      TwoBuffersStay(t);
    }
    assert t.buffers[|t.buffers| - 1].media == [];
    var u := if Overgrown(t) then CloseFront(t) else t;
    assert u.buffers[|u.buffers| - 1].media == [];
  }

  lemma {:induction false} ReceivingKeeps(s: State, tag: Tag)
    requires Inv(s)
    ensures Inv(Receiving(s, tag))
    ensures tag.kind.MediaInfo? ==> var t := Receiving(s, tag); t.buffers[|t.buffers| - 1].media == []
  {
    if Rotates(s, tag) {
      RotateKeeps(s);
      NewBufferIsEmpty(s);
    }
  }

  /** The media info changes while the buffer is empty. */
  lemma {:induction false} InfoKeeps(s: State, info: Info, ts: int)
    requires Inv(s) && s.buffers[|s.buffers| - 1].media == []
    ensures var last := |s.buffers| - 1;
            Inv(s.(buffers := s.buffers[last := s.buffers[last].(info := info, firstTs := ts)]))
  {
    var last := |s.buffers| - 1;
    var t := s.(buffers := s.buffers[last := s.buffers[last].(info := info, firstTs := ts)]);
    forall j | 0 <= j < |t.buffers| ensures Chained(t, j) {
      assert Chained(s, j) && Chained(s, 0);
    }
    forall j, q | 0 <= j < |t.buffers| && q in t.buffers[j].requests
      ensures Serves(t, j, q) && Moving(t.buffers[j], t.buffers[j].requests[q])
    {
      assert Serves(s, j, q) && Moving(s.buffers[j], s.buffers[j].requests[q]);
    }
    forall q | q in t.bufferOf ensures InSome(t, q) {
      var j :| 0 <= j < |s.buffers| && q in s.buffers[j].requests;
      assert q in t.buffers[j].requests;
    }
  }

  lemma {:induction false} SliceGrows(log: Log, first: nat, taken: seq<Frame>, frame: Frame)
    requires Slice(log, first, taken)
    ensures Slice(log, first, taken + [frame])
  {
    var n :| first <= n <= |taken| && log.frames == taken[first..n];
    assert (taken + [frame])[first..n] == taken[first..n];
  }

  lemma {:induction false} ClientGrows(b: Buffer, c: Controller, log: Log, first: nat, taken: seq<Frame>, frame: Frame)
    requires ClientOk(b, c, log, first, taken)
    ensures ClientOk(b, c, log, first, taken + [frame])
  {
    if !log.ended {
      assert (taken + [frame])[first..b.base + c.index] == taken[first..b.base + c.index];
    }
  }

  /** The buffer with the tag at its end. */
  function Longer(b: Buffer, tag: Tag, ts: int): Buffer {
    b.(firstTs := StartTs(b, ts), media := b.media + [Stamped(tag, ts - StartTs(b, ts))])
  }

  lemma {:induction false} LongerOk(b: Buffer, tag: Tag, ts: int, taken: seq<Frame>)
    requires BufferOk(b) && Holds(b, taken) && !b.closed && b.base + |b.media| == |taken|
    requires InStep(b, tag, ts) && !tag.kind.MediaInfo?
    ensures BufferOk(Longer(b, tag, ts)) && Holds(Longer(b, tag, ts), taken + [Frame(tag, Some(b.info))])
  {
  }

  lemma {:induction false} LongerChained(s: State, tag: Tag, ts: int, t: State)
    requires Safe(s) && InStep(s.buffers[|s.buffers| - 1], tag, ts) && !tag.kind.MediaInfo?
    requires var last := |s.buffers| - 1;
             t == s.(buffers := s.buffers[last := Longer(s.buffers[last], tag, ts)],
                     taken := s.taken + [Frame(tag, Some(s.buffers[last].info))])
    ensures forall k :: 0 <= k < |t.buffers| ==> Chained(t, k)
  {
    var last := |s.buffers| - 1;
    forall k | 0 <= k < |t.buffers| ensures Chained(t, k) {
      assert Chained(s, k) && Chained(s, 0) && Chained(s, last);
      LongerOk(s.buffers[last], tag, ts, s.taken);
    }
  }

  lemma {:induction false} LongerSafe(s: State, tag: Tag, ts: int, t: State)
    requires Safe(s) && InStep(s.buffers[|s.buffers| - 1], tag, ts) && !tag.kind.MediaInfo?
    requires var last := |s.buffers| - 1;
             t == s.(buffers := s.buffers[last := Longer(s.buffers[last], tag, ts)],
                     taken := s.taken + [Frame(tag, Some(s.buffers[last].info))])
    ensures Safe(t)
  {
    var last := |s.buffers| - 1;
    LongerChained(s, tag, ts, t);
    forall j, q | 0 <= j < |t.buffers| && q in t.buffers[j].requests ensures Serves(t, j, q) {
      assert Serves(s, j, q);
      ClientGrows(s.buffers[j], s.buffers[j].requests[q], Read(s.sent[q]), s.start[q], s.taken,
        Frame(tag, Some(s.buffers[last].info)));
    }
    forall q | q in t.bufferOf ensures InSome(t, q) {
      var j :| 0 <= j < |s.buffers| && q in s.buffers[j].requests;
      assert q in t.buffers[j].requests;
    }
    forall q | q in t.sent ensures q in t.start && Slice(Read(t.sent[q]), t.start[q], t.taken) {
      SliceGrows(Read(s.sent[q]), s.start[q], s.taken, Frame(tag, Some(s.buffers[last].info)));
    }
  }

  lemma {:induction false} MediaKeeps(s: State, tag: Tag, ts: int)
    requires Inv(s) && InStep(s.buffers[|s.buffers| - 1], tag, ts) && !tag.kind.MediaInfo?
    ensures Inv(Append(s, tag, ts))
  {
    var last := |s.buffers| - 1;
    var t := s.(buffers := s.buffers[last := Longer(s.buffers[last], tag, ts)],
                taken := s.taken + [Frame(tag, Some(s.buffers[last].info))]);
    assert Safe(t) by { LongerSafe(s, tag, ts, t); }
    assert LiveBut(t, last);
    NotifyKeeps(t, last);
    assert t.buffers[last := NotifyAll(t.buffers[last])]
           == s.buffers[last := NotifyAll(Longer(s.buffers[last], tag, ts))];
  }

  lemma {:induction false} AppendKeeps(s: State, tag: Tag, ts: int)
    requires Inv(s) && InStep(s.buffers[|s.buffers| - 1], tag, ts)
    requires tag.kind.MediaInfo? ==> s.buffers[|s.buffers| - 1].media == []
    ensures Inv(Append(s, tag, ts))
  {
    if tag.kind.MediaInfo? {
      InfoKeeps(s, TimeShifted(tag.kind.info), StartTs(s.buffers[|s.buffers| - 1], ts));
    } else {
      MediaKeeps(s, tag, ts);
    }
  }

  // ---------- whole runs ----------

  /** Only a stream time that fails a buffer's check ends the process, and every other step keeps the invariant. */
  lemma {:induction false} StepKeeps(s: State, step: Step)
    requires Inv(s) && Offered(s, step)
    ensures Survives(s, step) <==> (step.Ingest? ==> InTime(s, step.tag, step.ts))
    ensures Survives(s, step) ==> Inv(Do(s, step))
  {
    NoCheckFails(s, step);
    if Survives(s, step) {
      match step
      case Ingest(tag, ts) =>
        if Stored(tag) {
          ReceivingKeeps(s, tag);
          AppendKeeps(Receiving(s, tag), tag, ts);
        }
      case AlarmOf(r, appetite) => FireKeeps(s, r, appetite);
      case PauseOf(r, pause) => PauseKeeps(s, r, pause);
      case Add(r, delayMs) => AddKeeps(s, r, delayMs);
      case Remove(r) => RemoveKeeps(s, r);
    }
  }

  /** Step `i`, if the run gets there and it is a tag, comes in time. */
  predicate MetInTime(bufferSizeMs: nat, steps: seq<Step>, i: nat)
    requires i < |steps|
  {
    match After(Initial(bufferSizeMs), steps[..i])
    case None => true
    case Some(t) => steps[i].Ingest? && Exists(t) ==> InTime(t, steps[i].tag, steps[i].ts)
  }

  /** One more step: the run goes on exactly if it comes in time. */
  lemma {:induction false} OneMoreStep(bufferSizeMs: nat, steps: seq<Step>)
    requires steps != [] && After(Initial(bufferSizeMs), steps[..|steps| - 1]).Some?
    requires Inv(After(Initial(bufferSizeMs), steps[..|steps| - 1]).value)
    ensures After(Initial(bufferSizeMs), steps).Some? <==> MetInTime(bufferSizeMs, steps, |steps| - 1)
    ensures After(Initial(bufferSizeMs), steps).Some? ==> Inv(After(Initial(bufferSizeMs), steps).value)
  {
    var t, step := After(Initial(bufferSizeMs), steps[..|steps| - 1]).value, steps[|steps| - 1];
    if Offered(t, step) {
      StepKeeps(t, step);
    }
  }

  ghost predicate AllInTime(bufferSizeMs: nat, steps: seq<Step>) {
    forall i :: 0 <= i < |steps| ==> MetInTime(bufferSizeMs, steps, i)
  }

  lemma {:induction false} MetInTimePrefix(bufferSizeMs: nat, steps: seq<Step>, i: nat)
    requires i + 1 < |steps|
    ensures MetInTime(bufferSizeMs, steps, i) <==> MetInTime(bufferSizeMs, steps[..|steps| - 1], i)
  {
    assert steps[..|steps| - 1][..i] == steps[..i];
  }

  lemma {:induction false} AllInTimeInit(bufferSizeMs: nat, steps: seq<Step>)
    requires steps != []
    ensures AllInTime(bufferSizeMs, steps)
            <==> AllInTime(bufferSizeMs, steps[..|steps| - 1]) && MetInTime(bufferSizeMs, steps, |steps| - 1)
  {
    var init := steps[..|steps| - 1];
    forall i | 0 <= i < |init| ensures MetInTime(bufferSizeMs, steps, i) <==> MetInTime(bufferSizeMs, init, i) {
      MetInTimePrefix(bufferSizeMs, steps, i);
    }
  }

  /** Whatever the steps, the run goes on exactly as long as every tag comes in time, and the invariant holds. */
  lemma {:induction false} EveryRun(bufferSizeMs: nat, steps: seq<Step>)
    ensures After(Initial(bufferSizeMs), steps).Some? <==> AllInTime(bufferSizeMs, steps)
    ensures After(Initial(bufferSizeMs), steps).Some? ==> Inv(After(Initial(bufferSizeMs), steps).value)
  {
    if steps != [] {
      EveryRun(bufferSizeMs, steps[..|steps| - 1]);
      AllInTimeInit(bufferSizeMs, steps);
      if After(Initial(bufferSizeMs), steps[..|steps| - 1]).Some? {
        OneMoreStep(bufferSizeMs, steps);
      }
    }
  }

  /** In every run the media tags that a client was sent before the end of the stream are one slice of
      the tags taken in, in order, each under its own media info and at times that start at 0 and do not go
      back as long as it is in one buffer; the two kinds of request maps agree, the last buffer alone is
      active, and a client that is not paused is about to run or has had everything, unless it was left
      behind in a closed buffer. */
  lemma {:induction false} Delivery(bufferSizeMs: nat, steps: seq<Step>)
    requires AllInTime(bufferSizeMs, steps)
    ensures After(Initial(bufferSizeMs), steps).Some?
    ensures var s := After(Initial(bufferSizeMs), steps).value;
            && (forall r :: r in s.sent ==> r in s.start && Slice(Read(s.sent[r]), s.start[r], s.taken))
            && (forall r :: r in s.bufferOf <==> Has(s, r))
            && (forall k, r :: 0 <= k < |s.buffers| && r in s.buffers[k].requests ==> Has(s, r) && At(s, r) == k)
            && (forall k :: 0 <= k < |s.buffers| ==> (s.buffers[k].active <==> k == |s.buffers| - 1))
            && LiveBut(s, -1)
  {
    EveryRun(bufferSizeMs, steps);
    var s := After(Initial(bufferSizeMs), steps).value;
    forall r: Request ensures r in s.bufferOf <==> Has(s, r) {
      MapsAgree(s, r);
    }
    forall k, r | 0 <= k < |s.buffers| && r in s.buffers[k].requests ensures Has(s, r) && At(s, r) == k {
      MapsAgree(s, r);
    }
    forall k | 0 <= k < |s.buffers| ensures s.buffers[k].active <==> k == |s.buffers| - 1 {
      assert Chained(s, k);
    }
  }

  // ---------- going back in time ----------

  /** A client that asks for a delay starts on the first tag, in the buffer that holds that moment, which is
      not before the moment and which it can start on. If there is none it stands at the buffer's end, to go
      on with whatever tag is next: the next one to come if the buffer is active, else, as soon as its alarm
      goes off, the first tag of the next buffer. */
  lemma {:induction false} StartsAtDelay(s: State, r: Request, delayMs: int)
    requires Inv(s) && r !in s.bufferOf && 0 <= delayMs < BufferedMs(s.buffers)
    ensures var t := Added(s, r, delayMs);
            && Has(t, r) && t.sent[r] == []
            && var (k, c) := (At(t, r), ClientOf(t, r).ctl);
               var media, before, moment := s.buffers[k].media, BufferedMs(s.buffers[..k]),
                 BufferedMs(s.buffers) - delayMs;
               && c.pauses == 0 && c.armed && t.start[r] == s.buffers[k].base + c.index
               && before < moment <= before + SizeMs(s.buffers[k])
               && c.index <= |media|
               && (forall j :: 0 <= j < c.index ==> before + media[j].ts < moment || !media[j].tag.resync)
               && (c.index < |media| ==> before + media[c.index].ts >= moment && media[c.index].tag.resync)
  {
    SizesAreNonNegative(s);
    FindSlotExactly(s.buffers, delayMs);
    AddKeeps(s, r, delayMs);
    var slot := FindSlot(s.buffers, delayMs).value;
    var k, t := slot.index, Added(s, r, delayMs);
    assert s.buffers[..k + 1][..k] == s.buffers[..k];
    assert r in t.buffers[k].requests;
    MapsAgree(t, r);
  }

  lemma {:induction false} BufferedFromFront(buffers: seq<Buffer>)
    requires buffers != []
    ensures BufferedMs(buffers) == SizeMs(buffers[0]) + BufferedMs(buffers[1..])
  {
    var last := |buffers| - 1;
    if last > 0 {
      BufferedFromFront(buffers[..last]);
      assert buffers[..last][1..] == buffers[1..][..last - 1];
    } else {
      assert buffers[..0] == [] && buffers[1..] == [];
    }
  }

  predicate SameSize(b: Buffer, c: Buffer) {
    SizeMs(b) == SizeMs(c)
  }

  lemma {:induction false} BufferedSame(a: seq<Buffer>, b: seq<Buffer>)
    requires |a| == |b| && forall k :: 0 <= k < |a| ==> SameSize(a[k], b[k])
    ensures BufferedMs(a) == BufferedMs(b)
  {
    if a != [] {
      var last := |a| - 1;
      assert SameSize(a[last], b[last]);
      BufferedSame(a[..last], b[..last]);
    }
  }

  lemma {:induction false} StartBuffersNothing(s: State)
    requires s.buffers != []
    ensures BufferedMs(StartBuffer(s).buffers) == BufferedMs(s.buffers)
  {
    var t := StartBuffer(s);
    var last := |s.buffers|;
    assert forall k :: 0 <= k < last ==> SameSize(s.buffers[k], t.buffers[..last][k]);
    BufferedSame(s.buffers, t.buffers[..last]);
  }

  lemma {:induction false} CloseTakesFront(s: State)
    requires s.buffers != []
    ensures BufferedMs(CloseFront(s).buffers) == BufferedMs(s.buffers) - SizeMs(s.buffers[0])
  {
    var t := CloseFront(s);
    BufferedFromFront(s.buffers);
    if s.buffers[0].requests != map[] {
      BufferedFromFront(t.buffers);
      assert t.buffers[1..] == s.buffers[1..];
    }
  }

  lemma {:induction false} WakingTakesNothing(s: State)
    requires |s.buffers| >= 2
    ensures BufferedMs(WakePrevious(s).buffers) == BufferedMs(s.buffers)
  {
    assert forall k :: 0 <= k < |s.buffers| ==> SameSize(s.buffers[k], WakePrevious(s).buffers[k]);
    BufferedSame(s.buffers, WakePrevious(s).buffers);
  }

  lemma {:induction false} RoomIsEnough(s: State)
    requires s.buffers != []
    ensures var ms := BufferedMs(MadeRoom(s).buffers); ms == BufferedMs(s.buffers) || ms > 2 * s.bufferSizeMs
  {
    CloseTakesFront(s);
  }

  /** A rotation leaves everything buffered, or more than twice the size of a buffer. */
  lemma {:induction false} EnoughStaysBuffered(s: State)
    requires Exists(s)
    ensures BufferedMs(Rotate(s).buffers) == BufferedMs(s.buffers) || BufferedMs(Rotate(s).buffers) > 2 * s.bufferSizeMs
  {
    var t := StartBuffer(s);
    assert |MadeRoom(t).buffers| >= 2 by {
      if |t.buffers| == 2 { TwoBuffersStay(t); }
    }
    StartBuffersNothing(s);
    RoomIsEnough(t);
    WakingTakesNothing(MadeRoom(t));
  }

  // ---------- catching up ----------

  /** The client's alarm goes off `n` times and the client never pauses. */
  function PlayOut(s: State, r: Request, n: nat): State
    decreases n
  {
    if n > 0 && Has(s, r) && CanMoveOn(s, r) then PlayOut(Fired(s, r, 0), r, n - 1) else s
  }

  predicate Listening(s: State, r: Request) {
    Has(s, r) && ClientOf(s, r).ctl.pauses == 0 && !Read(s.sent[r]).ended
  }

  /** `r` has been sent every tag taken in since its first, and nothing else has changed for it. */
  predicate CaughtUp(s: State, t: State, r: Request) {
    && t.taken == s.taken && r in s.start && r in t.sent && r in t.start
    && t.start[r] == s.start[r] <= |s.taken| && Read(t.sent[r]).frames == s.taken[s.start[r]..]
  }

  lemma {:induction false} HasHadEverything(s: State, k: nat, p: Progress, first: nat)
    requires Safe(s) && k < |s.buffers| && s.buffers[k].active && p.ctl.index >= |s.buffers[k].media|
    requires ProgressOk(s.buffers[k], p, first, s.taken) && !Read(p.events).ended
    ensures first <= |s.taken| && Read(p.events).frames == s.taken[first..]
  {
    assert Chained(s, k);
    assert s.taken[first..|s.taken|] == s.taken[first..];
  }

  lemma {:induction false} FireAtTheEdge(s: State, r: Request)
    requires Inv(s) && Listening(s, r) && s.buffers[At(s, r)].active
    ensures CaughtUp(s, Fired(s, r, 0), r)
  {
    var k, p := At(s, r), ClientOf(s, r);
    var p' := p.(ctl := p.ctl.(armed := false));
    ServedOk(s, r);
    PlayKeeps(s.buffers[k], p', 0, s.start[r], s.taken);
    HasHadEverything(s, k, Play(s.buffers[k], p', 0), s.start[r]);
  }

  lemma {:induction false} FireHandsOn(s: State, r: Request)
    requires Inv(s) && Listening(s, r) && !s.buffers[At(s, r)].active && CanMoveOn(s, r)
    ensures var k, p := At(s, r), ClientOf(s, r);
            var q := Play(s.buffers[k], p.(ctl := p.ctl.(armed := false)), 0);
            && Fired(s, r, 0) == Place(Drop(s, k, r), k + 1, r, Progress(NewController(0), q.events), s.start[r])
            && !Read(q.events).ended
  {
    var k, p := At(s, r), ClientOf(s, r);
    var p' := p.(ctl := p.ctl.(armed := false));
    ServedOk(s, r);
    PlayKeeps(s.buffers[k], p', 0, s.start[r], s.taken);
    HandedOnIs(s, k, r, Play(s.buffers[k], p', 0), s.start[r]);
  }

  lemma {:induction false} FireMovesOn(s: State, r: Request)
    requires Inv(s) && Listening(s, r) && !s.buffers[At(s, r)].active && CanMoveOn(s, r)
    requires ClientOf(s, r).ctl.armed
    ensures var t := Fired(s, r, 0);
            && Inv(t) && Listening(t, r) && t.taken == s.taken && t.start[r] == s.start[r]
            && |t.buffers| == |s.buffers| && At(t, r) == At(s, r) + 1 && ClientOf(t, r).ctl.armed
  {
    var k, t := At(s, r), Fired(s, r, 0);
    FireHandsOn(s, r);
    FireKeeps(s, r, 0);
    ClientAt(t, k + 1, r, NewController(0));
  }

  lemma {:induction false} PlaysOn(s: State, r: Request, n: nat)
    requires Inv(s) && Has(s, r) && ClientOf(s, r).ctl.armed && n == |s.buffers| - At(s, r)
    ensures s.buffers[At(s, r)].active <==> n == 1
    ensures CanMoveOn(s, r) && PlayOut(s, r, n) == PlayOut(Fired(s, r, 0), r, n - 1)
    ensures n == 1 ==> PlayOut(s, r, n) == Fired(s, r, 0)
  {
    NoCheckFails(s, AlarmOf(r, 0));
    assert Chained(s, At(s, r));
  }

  lemma {:induction false} CatchesUpStep(s: State, r: Request)
    requires Inv(s) && Listening(s, r) && !s.buffers[At(s, r)].active && CanMoveOn(s, r)
    requires ClientOf(s, r).ctl.armed
    ensures forall u :: CaughtUp(Fired(s, r, 0), u, r) ==> CaughtUp(s, u, r)
  {
    FireMovesOn(s, r);
  }

  lemma {:induction false} CatchesUpIn(s: State, r: Request, n: nat)
    requires Inv(s) && Listening(s, r) && ClientOf(s, r).ctl.armed && n == |s.buffers| - At(s, r)
    ensures CaughtUp(s, PlayOut(s, r, n), r)
    decreases n
  {
    PlaysOn(s, r, n);
    if n == 1 {
      FireAtTheEdge(s, r);
    } else {
      CatchesUpStep(s, r);
      FireMovesOn(s, r);
      CatchesUpIn(Fired(s, r, 0), r, n - 1);
    }
  }

  /** A client that is not paused has had everything once its alarm has gone off in every buffer from its
      own to the last. */
  lemma {:induction false} CatchesUp(s: State, r: Request)
    requires Inv(s) && Listening(s, r) && ClientOf(s, r).ctl.armed
    ensures CaughtUp(s, PlayOut(s, r, |s.buffers| - At(s, r)), r)
  {
    CatchesUpIn(s, r, |s.buffers| - At(s, r));
  }

  // ---------- clients left behind ----------

  /** A rotation adds a buffer unless it makes room, and it makes room only when no client is left in the
      first buffer and the others hold enough. */
  lemma {:induction false} LazyClientHoldsBuffers(s: State, tag: Tag)
    requires Inv(s) && Rotates(s, tag)
    ensures |Rotate(s).buffers| == |s.buffers| + 1 <==> s.buffers[0].requests != map[] || !Overgrown(StartBuffer(s))
    ensures |Rotate(s).buffers| == |s.buffers| <==> s.buffers[0].requests == map[] && Overgrown(StartBuffer(s))
  {
    var t := StartBuffer(s);
    if |t.buffers| == 2 {
      TwoBuffersStay(t);
    }
    assert t.buffers[0].requests == s.buffers[0].requests;
    assert Rotate(s) == WakePrevious(MadeRoom(t));
    assert |MadeRoom(t).buffers| == |t.buffers| - if s.buffers[0].requests == map[] && Overgrown(t) then 1 else 0;
  }

  lemma {:induction false} ClientAt(s: State, k: nat, r: Request, c: Controller)
    requires Safe(s) && k < |s.buffers| && r in s.buffers[k].requests && s.buffers[k].requests[r] == c
    ensures Has(s, r) && At(s, r) == k && ClientOf(s, r).ctl == c
  {
    MapsAgree(s, r);
  }

  /** A client left in a closed buffer, with nothing under way for it. */
  predicate LeftBehind(s: State, r: Request) {
    Has(s, r) && s.buffers[At(s, r)].closed && !ClientOf(s, r).ctl.armed
  }

  lemma {:induction false} LeftInFront(s: State, r: Request)
    requires Safe(s) && LeftBehind(s, r)
    ensures At(s, r) == 0 && |s.buffers| >= 2 && s.buffers[0].requests != map[] && Read(s.sent[r]).ended
    ensures s.buffers[0].closed
  {
    MapsAgree(s, r);
    assert Chained(s, At(s, r)) && Chained(s, |s.buffers| - 1);
    assert r in s.buffers[0].requests;
  }

  /** The first buffer keeps the client as it is. */
  predicate FrontKeeps(s: State, t: State, r: Request) {
    && s.buffers != [] && t.buffers != [] && r in s.buffers[0].requests && r in t.buffers[0].requests
    && t.buffers[0].requests[r] == s.buffers[0].requests[r] && t.buffers[0].closed == s.buffers[0].closed
  }

  lemma {:induction false} RotationLeavesFront(s: State, r: Request)
    requires Safe(s) && LeftBehind(s, r)
    ensures FrontKeeps(s, Rotate(s), r) && |Rotate(s).buffers| >= 3
    ensures Rotate(s).sent[r] == if Overgrown(StartBuffer(s)) then s.sent[r] + [Eos] else s.sent[r]
  {
    LeftInFront(s, r);
    var t := StartBuffer(s);
    assert t.buffers[0] == s.buffers[0];
    var u := MadeRoom(t);
    assert FrontKeeps(s, u, r) && |u.buffers| >= 3;
  }

  lemma {:induction false} TagLeavesFront(s: State, r: Request, tag: Tag, ts: int)
    requires Safe(s) && LeftBehind(s, r)
    ensures FrontKeeps(s, Ingested(s, tag, ts), r)
  {
    LeftInFront(s, r);
    if Stored(tag) && Rotates(s, tag) {
      RotationLeavesFront(s, r);
    }
  }

  lemma {:induction false} AlarmLeavesFront(s: State, r: Request, q: Request, appetite: nat)
    requires s.buffers != [] && r in s.buffers[0].requests && q != r && Has(s, q) && CanMoveOn(s, q)
    ensures FrontKeeps(s, Fired(s, q, appetite), r)
  {
  }

  lemma {:induction false} RemovalLeavesFront(s: State, r: Request, q: Request)
    requires Safe(s) && r in s.buffers[0].requests && q != r && Has(s, q)
    ensures FrontKeeps(s, Removed(s, q), r)
  {
    assert Chained(s, At(s, q));
    assert r in Drop(s, At(s, q), q).buffers[0].requests;
  }

  lemma {:induction false} OtherLeavesFront(s: State, r: Request, step: Step)
    requires Inv(s) && LeftBehind(s, r) && Offered(s, step) && Survives(s, step) && !step.Ingest? && step.r != r
    ensures FrontKeeps(s, Do(s, step), r)
  {
    LeftInFront(s, r);
    match step
    case AlarmOf(q, appetite) => AlarmLeavesFront(s, r, q, appetite);
    case PauseOf(q, pause) =>
    case Add(q, delayMs) =>
    case Remove(q) => RemovalLeavesFront(s, r, q);
  }

  /** The only step that sets a client going that was left in a closed buffer is its own resuming to the end. */
  lemma {:induction false} OnlyResumingRevives(s: State, r: Request, step: Step)
    requires Inv(s) && LeftBehind(s, r) && Offered(s, step) && Survives(s, step)
    ensures var t := Do(s, step);
            Has(t, r) && ClientOf(t, r).ctl.armed <==> step == PauseOf(r, false) && ClientOf(s, r).ctl.pauses == 1
  {
    var t, c := Do(s, step), ClientOf(s, r).ctl;
    LeftInFront(s, r);
    StepKeeps(s, step);
    if step.Ingest? || step.r != r {
      if step.Ingest? {
        TagLeavesFront(s, r, step.tag, step.ts);
      } else {
        OtherLeavesFront(s, r, step);
      }
      ClientAt(t, 0, r, c);
    } else if step.PauseOf? {
      assert r in t.buffers[0].requests;
      ClientAt(t, 0, r, t.buffers[0].requests[r]);
    }
  }

  /** A client that was sent the end of the stream and resumes is handed to the next buffer. */
  lemma {:induction false} LazyClientIsRevived(s: State, r: Request)
    requires Inv(s) && LeftBehind(s, r) && ClientOf(s, r).ctl.pauses == 1
    ensures Read(s.sent[r]).ended
    ensures var t := PauseSet(s, r, false);
            && Inv(t) && Offered(t, AlarmOf(r, 0)) && CanMoveOn(t, r)
            && var u := Fired(t, r, 0);
               && Inv(u) && Has(u, r) && At(u, r) == 1 && ClientOf(u, r) == Progress(NewController(0), s.sent[r])
               && |u.buffers| == |s.buffers| && u.buffers[1].media == s.buffers[1].media
  {
    var t := PauseSet(s, r, false);
    LeftInFront(s, r);
    PauseKeeps(s, r, false);
    assert r in t.buffers[0].requests;
    ClientAt(t, 0, r, t.buffers[0].requests[r]);
    assert Chained(t, 0) && Chained(t, |t.buffers| - 1);
    FromTheStart(t, 1);
    var u := Fired(t, r, 0);
    FireKeeps(t, r, 0);
    assert r in u.buffers[1].requests;
    ClientAt(u, 1, r, NewController(0));
  }

  /** ... and its next alarm sends it media, if there is any. */
  lemma {:induction false} RevivedClientIsPlayed(u: State, r: Request)
    requires Inv(u) && Has(u, r) && ClientOf(u, r).ctl == NewController(0) && u.buffers[At(u, r)].media != []
    ensures Offered(u, AlarmOf(r, 0)) && CanMoveOn(u, r)
    ensures var first := u.buffers[At(u, r)].media[0].tag;
            && r in Fired(u, r, 0).sent
            && u.sent[r] + [SourceStarted] + [Announced(u.buffers[At(u, r)].info)] + [Media(first, 0)]
               <= Fired(u, r, 0).sent[r]
  {
    NoCheckFails(u, AlarmOf(r, 0));
    var b, p := u.buffers[At(u, r)], ClientOf(u, r);
    var p' := p.(ctl := p.ctl.(armed := false));
    PlayExtends(b, SendNext(b, p'), 0);
    assert Play(b, p', 0) == Play(b, SendNext(b, p'), 0);
  }

  /** A client left in a closed buffer is sent another end of stream by every rotation that has to make room. */
  lemma {:induction false} EosRepeatsExactly(s: State, r: Request)
    requires Safe(s) && LeftBehind(s, r)
    ensures Rotate(s).sent[r] == s.sent[r] + [Eos] <==> Overgrown(StartBuffer(s))
    ensures Rotate(s).sent[r] == s.sent[r] <==> !Overgrown(StartBuffer(s))
  {
    RotationLeavesFront(s, r);
    assert s.sent[r] + [Eos] != s.sent[r] by { assert |s.sent[r] + [Eos]| == |s.sent[r]| + 1; }
  }

  // ---------- histories ----------

  lemma {:induction false} PlayExtends(b: Buffer, p: Progress, appetite: nat)
    ensures p.events <= Play(b, p, appetite).events
    decreases |b.media| - p.ctl.index
  {
    if p.ctl.pauses == 0 && p.ctl.index < |b.media| {
      var q := SendNext(b, p);
      if appetite == 1 {
        PlayExtends(b, q.(ctl := Paused(q.ctl)), 0);
      } else {
        PlayExtends(b, q, if appetite == 0 then 0 else appetite - 1);
      }
    }
  }

  /** A client's first tag stays, and what it was sent stays. */
  predicate Grows(s: State, t: State, r: Request) {
    && s.taken <= t.taken
    && r in s.sent && r in s.start && r in t.sent && r in t.start
    && t.start[r] == s.start[r] && s.sent[r] <= t.sent[r]
  }

  lemma {:induction false} PlacedGrows(s: State, k: nat, q: Request, p: Progress, first: nat, r: Request)
    requires k < |s.buffers| && r in s.sent && r in s.start
    requires q == r ==> s.sent[r] <= p.events && first == s.start[r]
    ensures Grows(s, Place(s, k, q, p, first), r)
  {
  }

  lemma {:induction false} FiredGrows(s: State, q: Request, appetite: nat, r: Request)
    requires Has(s, q) && CanMoveOn(s, q) && r in s.sent && r in s.start
    ensures Grows(s, Fired(s, q, appetite), r)
  {
    var k, p := At(s, q), ClientOf(s, q);
    var p' := p.(ctl := p.ctl.(armed := false));
    PlayExtends(s.buffers[k], p', appetite);
    var play := Play(s.buffers[k], p', appetite);
    if play.ctl.pauses > 0 || s.buffers[k].active {
      PlacedGrows(s, k, q, play, s.start[q], r);
    } else {
      var i := FirstIndex(s.buffers[k + 1].media, 0, 0, false);
      PlacedGrows(Drop(s, k, q), k + 1, q, Progress(NewController(i), play.events), s.start[q], r);
    }
  }

  lemma {:induction false} IngestedGrows(s: State, tag: Tag, ts: int, r: Request)
    requires Exists(s) && r in s.sent && r in s.start
    ensures Grows(s, Ingested(s, tag, ts), r)
  {
    if Stored(tag) {
      var t := Receiving(s, tag);
      assert Grows(s, t, r);
    }
  }

  /** Nothing taken in or sent is ever revised, and a client keeps its first tag through every hand-over. */
  lemma {:induction false} HistoryGrows(s: State, step: Step, r: Request)
    requires Inv(s) && Offered(s, step) && Survives(s, step) && r in s.sent && (step.Add? ==> step.r != r)
    ensures Grows(s, Do(s, step), r)
  {
    match step
    case AlarmOf(q, appetite) => FiredGrows(s, q, appetite, r);
    case PauseOf(q, pause) =>
      PlacedGrows(s, At(s, q), q, ClientOf(s, q).(ctl := PauseSet(s, q, pause).buffers[At(s, q)].requests[q]),
        s.start[q], r);
    case Ingest(tag, ts) => IngestedGrows(s, tag, ts, r);
    case Add(q, delayMs) =>
    case Remove(q) =>
  }

  // ---------- the first tag of a client ----------

  predicate AddedOnce(steps: seq<Step>, r: Request) {
    forall i :: 0 <= i < |steps| ==> !steps[i].Add? || steps[i].r != r
  }

  lemma {:induction false} GrowsOn(s: State, t: State, u: State, r: Request)
    requires Grows(s, t, r) && Grows(t, u, r)
    ensures Grows(s, u, r)
  {
  }

  /** What a client was sent and its first tag stay through any run, even when it is removed. */
  lemma {:induction false} RunGrows(s: State, steps: seq<Step>, r: Request)
    requires Inv(s) && r in s.sent && AddedOnce(steps, r) && After(s, steps).Some?
    ensures Inv(After(s, steps).value) && Grows(s, After(s, steps).value, r)
  {
    if steps != [] {
      var init, step := steps[..|steps| - 1], steps[|steps| - 1];
      RunGrows(s, init, r);
      var t := After(s, init).value;
      if Offered(t, step) {
        StepKeeps(t, step);
        HistoryGrows(t, step, r);
        GrowsOn(s, t, Do(t, step), r);
      }
    }
  }

  lemma {:induction false} FirstTagSent(s: State, r: Request)
    requires Safe(s) && r in s.sent && Read(s.sent[r]).frames != []
    ensures s.start[r] < |s.taken| && Read(s.sent[r]).frames[0] == s.taken[s.start[r]]
  {
  }

  /** The buffer holds a tag from the moment on that a client can start on. */
  predicate HasStart(s: State, slot: Slot)
    requires slot.index < |s.buffers|
  {
    var b := s.buffers[slot.index];
    exists j :: 0 <= j < |b.media| && Startable(b.media[j], SizeMs(b) - slot.delayMs, true)
  }

  /** The number of the first media tag after the buffer. */
  function EndOf(b: Buffer): nat {
    b.base + |b.media|
  }

  lemma {:induction false} EntersAt(s: State, slot: Slot, r: Request)
    requires Safe(s) && slot.index < |s.buffers|
    ensures var b, first := s.buffers[slot.index], Entered(s, slot, r).start[r];
            && (HasStart(s, slot) ==> first < EndOf(b) && first < |s.taken| && s.taken[first].tag.resync)
            && (!HasStart(s, slot) ==> first == EndOf(b))
  {
    assert Chained(s, slot.index);
  }

  lemma {:induction false} NextBufferBegins(s: State, k: nat)
    requires Safe(s) && k + 1 < |s.buffers| && !s.buffers[k].closed && s.buffers[k + 1].media != []
    ensures EndOf(s.buffers[k]) < |s.taken| && s.taken[EndOf(s.buffers[k])].tag == s.buffers[k + 1].media[0].tag
  {
    assert Chained(s, k) && Chained(s, k + 1);
  }

  /** However the run goes on, the first tag a client is sent is a key frame exactly when its buffer held one
      from the moment on or the first tag after that buffer is one. */
  lemma {:induction false} FirstTagIsKeyExactly(s: State, r: Request, delayMs: int, steps: seq<Step>)
    requires Inv(s) && r !in s.bufferOf && 0 <= delayMs < BufferedMs(s.buffers)
    requires AddedOnce(steps, r) && After(Added(s, r, delayMs), steps).Some?
    ensures FindSlot(s.buffers, delayMs).Some?
    ensures var slot, u := FindSlot(s.buffers, delayMs).value, After(Added(s, r, delayMs), steps).value;
            var end := EndOf(s.buffers[slot.index]);
            && r in u.sent
            && (Read(u.sent[r]).frames != [] ==>
                  && (HasStart(s, slot) || end < |u.taken|)
                  && (Read(u.sent[r]).frames[0].tag.resync <==> HasStart(s, slot) || u.taken[end].tag.resync))
  {
    ServedFromMemory(s, delayMs);
    AddKeeps(s, r, delayMs);
    var slot, t := FindSlot(s.buffers, delayMs).value, Added(s, r, delayMs);
    EntersAt(s, slot, r);
    RunGrows(t, steps, r);
    var u := After(t, steps).value;
    if Read(u.sent[r]).frames != [] {
      FirstTagSent(u, r);
    }
  }

  // ---------- the element ----------

  method GetFirstIndex(media: seq<Stamped>, ms: int, onKeyframe: bool) returns (i: nat)
    ensures i == FirstIndex(media, 0, ms, onKeyframe)
  {
    i := 0;
    while i < |media|
      invariant i <= |media| && FirstIndex(media, i, ms, onKeyframe) == FirstIndex(media, 0, ms, onKeyframe)
    {
      if media[i].ts >= ms {
        if !onKeyframe {
          return;
        }
        if media[i].tag.resync {
          return;
        }
      }
      i := i + 1;
    }
  }

  method GetBufferedMs(buffers: seq<Buffer>) returns (ms: int)
    ensures ms == BufferedMs(buffers)
  {
    ms := 0;
    for k := 0 to |buffers|
      invariant ms == BufferedMs(buffers[..k])
    {
      assert buffers[..k + 1][..k] == buffers[..k];
      ms := ms + SizeMs(buffers[k]);
    }
    assert buffers[..|buffers|] == buffers;
  }

  method FindBuffer(buffers: seq<Buffer>, id: nat) returns (k: nat)
    ensures k == Position(buffers, id)
  {
    k := 0;
    while k < |buffers| && buffers[k].id != id
      invariant k <= |buffers| && k + Position(buffers[k..], id) == Position(buffers, id)
    {
      assert buffers[k..][1..] == buffers[k + 1..];
      k := k + 1;
    }
  }

  method SearchBuffers(buffers: seq<Buffer>, delayMs: int) returns (slot: Option<Slot>)
    ensures slot == FindSlot(buffers, delayMs)
  {
    var k, left := |buffers|, delayMs;
    assert buffers[..k] == buffers;
    while k > 0
      invariant k <= |buffers| && FindSlot(buffers[..k], left) == FindSlot(buffers, delayMs)
    {
      assert buffers[..k][..k - 1] == buffers[..k - 1];
      k := k - 1;
      if SizeMs(buffers[k]) > left {
        return Some(Slot(k, left));
      }
      left := left - SizeMs(buffers[k]);
    }
    return None;
  }

  /** One run of a client's alarm over a buffer. */
  method RunController(b: Buffer, from: Progress, appetite: nat) returns (p: Progress)
    ensures p == Play(b, from, appetite)
  {
    p := from;
    var hunger := appetite;
    while p.ctl.pauses == 0
      invariant Play(b, p, hunger) == Play(b, from, appetite)
      decreases |b.media| - p.ctl.index, if p.ctl.pauses == 0 then 1 else 0
    {
      if p.ctl.index >= |b.media| {
        return;
      }
      p := SendNext(b, p);
      if hunger == 1 {
        p := p.(ctl := Paused(p.ctl));
      }
      hunger := if hunger == 0 then 0 else hunger - 1;
    }
  }

  class TimeShiftElement {
    const bufferSizeMs: int
    var buffers: seq<Buffer>
    var bufferOf: map<Request, nat>
    var sent: map<Request, seq<Event>>
    ghost var start: map<Request, nat>
    ghost var taken: seq<Frame>

    ghost function Now(): State
      reads this
    {
      State(bufferSizeMs, buffers, bufferOf, sent, start, taken)
    }

    ghost predicate Valid()
      reads this
    {
      Inv(Now())
    }

    constructor (bufferSizeMs: nat)
      ensures Valid() && Now() == Initial(bufferSizeMs)
    {
      this.bufferSizeMs := bufferSizeMs;
      buffers := Initial(bufferSizeMs).buffers;
      bufferOf, sent, start, taken := map[], map[], map[], [];
      new;
      EveryRun(bufferSizeMs, []);
    }

    /** Puts a client in a buffer, in place of its earlier controller there if any. */
    method Put(k: nat, r: Request, c: Controller, events: seq<Event>, ghost first: nat)
      requires k < |buffers|
      modifies this
      ensures Now() == Place(old(Now()), k, r, Progress(c, events), first)
    {
      var b := buffers[k];
      buffers := buffers[k := b.(requests := b.requests[r := c])];
      bufferOf := bufferOf[r := b.id];
      sent := sent[r := events];
      start := start[r := first];
    }

    method Take(k: nat, r: Request)
      requires k < |buffers|
      modifies this
      ensures Now() == Drop(old(Now()), k, r)
    {
      var b := buffers[k];
      buffers := buffers[k := b.(requests := b.requests - {r})];
      bufferOf := bufferOf - {r};
    }

    /** `memory`: some buffer holds the delay; otherwise the request goes to the files on disk. */
    method AddRequest(r: Request, delayMs: int) returns (memory: bool)
      requires Valid() && Offered(Now(), Add(r, delayMs))
      modifies this
      ensures Valid() && Now() == Added(old(Now()), r, delayMs)
      ensures memory <==> delayMs < BufferedMs(old(buffers))
    {
      AddKeeps(Now(), r, delayMs);
      ServedFromMemory(Now(), delayMs);
      var slot := SearchBuffers(buffers, delayMs);
      memory := slot.Some?;
      if memory {
        Enter(slot.value, r);
      }
    }

    method Enter(slot: Slot, r: Request)
      requires slot.index < |buffers|
      modifies this
      ensures Now() == Entered(old(Now()), slot, r)
    {
      var b := buffers[slot.index];
      var i := GetFirstIndex(b.media, SizeMs(b) - slot.delayMs, true);
      Put(slot.index, r, NewController(i), [], b.base + i);
    }

    method RemoveRequest(r: Request)
      requires Valid() && r in bufferOf
      modifies this
      ensures Valid() && Has(old(Now()), r) && Now() == Removed(old(Now()), r)
    {
      MapsAgree(Now(), r);
      RemoveKeeps(Now(), r);
      var k := FindBuffer(buffers, bufferOf[r]);
      Take(k, r);
      if buffers[k].requests == map[] && buffers[k].closed {
        buffers := buffers[..k] + buffers[k + 1..];
      }
    }

    method Pause(r: Request, pause: bool)
      requires Valid() && Offered(Now(), PauseOf(r, pause))
      modifies this
      ensures Valid() && Now() == PauseSet(old(Now()), r, pause)
    {
      PauseKeeps(Now(), r, pause);
      var k := FindBuffer(buffers, bufferOf[r]);
      var c := buffers[k].requests[r];
      if pause {
        c := c.(pauses := c.pauses + 1);
      } else {
        c := c.(pauses := c.pauses - 1);
      }
      if c.pauses == 0 {
        c := c.(armed := true);
      } else {
        c := c.(armed := false);
      }
      Put(k, r, c, sent[r], start[r]);
    }

    /** Moves a client from buffer `k` to the start of the next. */
    method PlayFinished(k: nat, r: Request, c: Controller, events: seq<Event>, ghost first: nat)
      requires k + 1 < |buffers|
      modifies this
      ensures Now() == HandedOn(old(Now()), k, r, Progress(c, events), first)
    {
      Take(k, r);
      var i := GetFirstIndex(buffers[k + 1].media, 0, false);
      Put(k + 1, r, NewController(i), events, first);
    }

    method Run(r: Request, appetite: nat)
      requires Valid() && Offered(Now(), AlarmOf(r, appetite))
      modifies this
      ensures Valid() && CanMoveOn(old(Now()), r) && Now() == Fired(old(Now()), r, appetite)
    {
      NoCheckFails(Now(), AlarmOf(r, appetite));
      FireKeeps(Now(), r, appetite);
      var k := FindBuffer(buffers, bufferOf[r]);
      var p := RunController(buffers[k], Progress(buffers[k].requests[r].(armed := false), sent[r]), appetite);
      if p.ctl.pauses > 0 || buffers[k].active {
        Put(k, r, p.ctl, p.events, start[r]);
      } else {
        PlayFinished(k, r, p.ctl, p.events, start[r]);
      }
    }

    method AppendBuffer()
      requires buffers != []
      modifies this
      ensures Now() == StartBuffer(old(Now()))
    {
      var last := |buffers| - 1;
      var b := buffers[last];
      buffers := buffers[last := b.(active := false)]
                 + [Buffer(b.id + 1, b.base + |b.media|, [], b.info, map[], -1, true, false)];
    }

    method CloseFirst()
      requires buffers != []
      modifies this
      ensures Now() == CloseFront(old(Now()))
    {
      var b := buffers[0];
      if b.requests == map[] {
        buffers := buffers[1..];
      } else {
        buffers := buffers[0 := Closed(b)];
        sent := map r | r in sent :: if r in b.requests then sent[r] + [Eos] else sent[r];
      }
    }

    /** A new last buffer, room made for it, and the clients of the one before woken. */
    method StartNextBuffer()
      requires buffers != [] && bufferSizeMs >= 0
      modifies this
      ensures Now() == Rotate(old(Now()))
    {
      AppendBuffer();
      var ms := GetBufferedMs(buffers);
      if |buffers| == 2 { TwoBuffersStay(Now()); }
      if ms - SizeMs(buffers[0]) > 2 * bufferSizeMs {
        CloseFirst();
      }
      var k := |buffers| - 2;
      buffers := buffers[k := NotifyAll(buffers[k])];
    }

    method AppendTag(tag: Tag, ts: int)
      requires buffers != []
      modifies this
      ensures Now() == Append(old(Now()), tag, ts)
    {
      var last := |buffers| - 1;
      var b := buffers[last].(firstTs := StartTs(buffers[last], ts));
      if tag.kind.MediaInfo? {
        buffers := buffers[last := b.(info := TimeShifted(tag.kind.info))];
      } else {
        buffers := buffers[last := NotifyAll(b.(media := b.media + [Stamped(tag, ts - b.firstTs)]))];
        taken := taken + [Frame(tag, Some(b.info))];
      }
    }

    /** Makes the last buffer the one that is to take the tag. */
    method Receive(tag: Tag)
      requires Valid()
      modifies this
      ensures Valid() && Now() == Receiving(old(Now()), tag)
    {
      ReceivingKeeps(Now(), tag);
      if SizeMs(buffers[|buffers| - 1]) > bufferSizeMs || tag.kind.MediaInfo? {
        StartNextBuffer();
      }
    }

    /** `ok`: the process goes on. A tag that does not come in time ends it before it is stored. */
    method ProcessTag(tag: Tag, ts: int) returns (ok: bool)
      requires Valid()
      modifies this
      ensures Valid() && (ok <==> InTime(old(Now()), tag, ts))
      ensures ok ==> Now() == Ingested(old(Now()), tag, ts)
      ensures !ok ==> Now() == Receiving(old(Now()), tag)
    {
      if !Stored(tag) {
        return true;
      }
      StepKeeps(Now(), Ingest(tag, ts));
      Receive(tag);
      ok := InStep(buffers[|buffers| - 1], tag, ts);
      if ok {
        AppendTag(tag, ts);
      }
    }
  }
}
