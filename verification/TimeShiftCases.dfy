/**
 Two runs of the time shift, step by step from its initial state.

 In the first a client that was left behind is sent media after the end of its stream. In the second a
 client that is handed on at the end of a passive buffer is first sent a tag that is no key frame.
 */
module TimeShiftCases {
  import opened Options
  import opened TimeShift

  function T(n: int): Tag {
    Tag(Flv, true, n)
  }

  const CLIENT: Request := 1

  /** Two tags come in, a client joins 5 ms back and pauses, three more tags come in, it resumes and its
      alarm goes off twice. */
  function ThePauses(): seq<Step> {
    [Ingest(T(0), 0), Ingest(T(1), 10), Add(CLIENT, 5), PauseOf(CLIENT, true), Ingest(T(2), 20), Ingest(T(3), 30),
     Ingest(T(4), 40), PauseOf(CLIENT, false), AlarmOf(CLIENT, 0), AlarmOf(CLIENT, 0)]
  }

  predicate Reached(steps: seq<Step>, s0: State, n: nat, s: State) {
    n <= |steps| && After(s0, steps[..n]) == Some(s)
  }

  lemma {:induction false} Goes(steps: seq<Step>, s0: State, n: nat, s: State)
    requires Reached(steps, s0, n, s) && n < |steps| && Exists(s) && Offered(s, steps[n]) && Survives(s, steps[n])
    ensures Reached(steps, s0, n + 1, Do(s, steps[n]))
  {
    assert steps[..n + 1][..n] == steps[..n];
  }

  /** A buffer with everything but its clients. */
  predicate IsBuffer(b: Buffer, id: nat, media: seq<Stamped>, firstTs: int, active: bool) {
    b.id == id && b.media == media && b.firstTs == firstTs && b.active == active && !b.closed
  }

  predicate Bare(s: State, buffers: nat) {
    s.bufferSizeMs == 0 && |s.buffers| == buffers
  }

  predicate Parked(s: State) {
    && s.buffers != [] && s.buffers[0].id == 0 && CLIENT in s.buffers[0].requests
    && s.buffers[0].requests[CLIENT] == Controller(1, 1, false, false, -1)
    && CLIENT in s.bufferOf && s.bufferOf[CLIENT] == 0 && CLIENT in s.start
  }

  const A := [Stamped(T(0), 0), Stamped(T(1), 10)]
  const B := [Stamped(T(2), 0), Stamped(T(3), 10)]

  predicate HasNothing(s: State) {
    Bare(s, 1) && IsBuffer(s.buffers[0], 0, [], -1, true) && s.bufferOf == map[]
  }

  predicate HasOne(s: State) {
    Bare(s, 1) && IsBuffer(s.buffers[0], 0, A[..1], 0, true) && s.bufferOf == map[]
  }

  predicate HasTwo(s: State) {
    Bare(s, 1) && IsBuffer(s.buffers[0], 0, A, 0, true) && s.bufferOf == map[]
  }

  predicate HasParked(s: State) {
    Bare(s, 1) && IsBuffer(s.buffers[0], 0, A, 0, true) && Parked(s) && CLIENT in s.sent && s.sent[CLIENT] == []
  }

  predicate HasNext(s: State, media: seq<Stamped>) {
    && Bare(s, 2) && IsBuffer(s.buffers[0], 0, A, 0, false) && IsBuffer(s.buffers[1], 1, media, 20, true)
    && Parked(s) && CLIENT in s.sent && s.sent[CLIENT] == []
  }

  predicate HasLeft(s: State) {
    && Bare(s, 3) && s.buffers[0].closed && Parked(s) && s.buffers[1].media == B
    && CLIENT in s.sent && s.sent[CLIENT] == [Eos]
  }

  lemma {:induction false} FirstTag(s: State)
    requires HasNothing(s)
    ensures Survives(s, Ingest(T(0), 0)) && HasOne(Do(s, Ingest(T(0), 0)))
  {
  }

  lemma {:induction false} SecondTag(s: State)
    requires HasOne(s)
    ensures Survives(s, Ingest(T(1), 10)) && HasTwo(Do(s, Ingest(T(1), 10)))
  {
  }

  lemma {:induction false} Joins(s: State)
    requires HasTwo(s)
    ensures Offered(s, Add(CLIENT, 5))
    ensures var t := Do(Do(s, Add(CLIENT, 5)), PauseOf(CLIENT, true));
            Offered(Do(s, Add(CLIENT, 5)), PauseOf(CLIENT, true)) && HasParked(t)
  {
    assert FindSlot(s.buffers, 5) == Some(Slot(0, 5));
    assert FirstIndex(A, 1, 5, true) == 1 && FirstIndex(A, 0, 5, true) == 1;
  }

  lemma {:induction false} ThirdTag(s: State)
    requires HasParked(s)
    ensures Survives(s, Ingest(T(2), 20)) && HasNext(Do(s, Ingest(T(2), 20)), B[..1])
  {
    TwoBuffersStay(StartBuffer(s));
  }

  lemma {:induction false} FourthTag(s: State)
    requires HasNext(s, B[..1])
    ensures Survives(s, Ingest(T(3), 30)) && HasNext(Do(s, Ingest(T(3), 30)), B)
  {
  }

  lemma {:induction false} ThreeBuffers(buffers: seq<Buffer>)
    requires |buffers| == 3
    ensures BufferedMs(buffers) == SizeMs(buffers[0]) + SizeMs(buffers[1]) + SizeMs(buffers[2])
  {
    assert buffers[..2][..1] == buffers[..1] && buffers[..1][..0] == [];
    assert BufferedMs(buffers[..1]) == SizeMs(buffers[0]);
    assert BufferedMs(buffers[..2]) == SizeMs(buffers[0]) + SizeMs(buffers[1]);
  }

  lemma {:induction false} FifthTag(s: State)
    requires HasNext(s, B)
    ensures Survives(s, Ingest(T(4), 40)) && HasLeft(Do(s, Ingest(T(4), 40)))
  {
    var t := StartBuffer(s);
    ThreeBuffers(t.buffers);
    assert Overgrown(t);
    var u := CloseFront(t);
    assert u.sent[CLIENT] == [Eos];
    assert u.buffers[0].closed && u.buffers[1].media == B && |u.buffers| == 3;
  }

  lemma {:induction false} FirstTwo(steps: seq<Step>, s0: State) returns (s: State)
    requires |steps| == 10 && steps[0] == Ingest(T(0), 0) && steps[1] == Ingest(T(1), 10) && HasNothing(s0)
    ensures Reached(steps, s0, 2, s) && HasTwo(s)
  {
    assert steps[..0] == [];
    FirstTag(s0);
    Goes(steps, s0, 0, s0);
    var s1 := Do(s0, steps[0]);
    SecondTag(s1);
    Goes(steps, s0, 1, s1);
    s := Do(s1, steps[1]);
  }

  lemma {:induction false} NextTwo(steps: seq<Step>, s0: State, s2: State) returns (s: State)
    requires |steps| == 10 && steps[2] == Add(CLIENT, 5) && steps[3] == PauseOf(CLIENT, true)
    requires Reached(steps, s0, 2, s2) && HasTwo(s2)
    ensures Reached(steps, s0, 4, s) && HasParked(s)
  {
    Joins(s2);
    Goes(steps, s0, 2, s2);
    s := Pauses(steps, s0, Do(s2, steps[2]));
  }

  lemma {:induction false} Pauses(steps: seq<Step>, s0: State, s3: State) returns (s: State)
    requires |steps| == 10 && steps[3] == PauseOf(CLIENT, true) && Reached(steps, s0, 3, s3)
    requires Exists(s3) && Offered(s3, steps[3]) && HasParked(Do(s3, steps[3]))
    ensures Reached(steps, s0, 4, s) && HasParked(s)
  {
    Goes(steps, s0, 3, s3);
    s := Do(s3, steps[3]);
  }

  lemma {:induction false} NextTag(steps: seq<Step>, s0: State, n: nat, t: State) returns (s: State)
    requires Reached(steps, s0, n, t) && n < |steps| && steps[n].Ingest? && Exists(t) && Survives(t, steps[n])
    ensures Reached(steps, s0, n + 1, s) && s == Do(t, steps[n])
  {
    Goes(steps, s0, n, t);
    s := Do(t, steps[n]);
  }

  lemma {:induction false} ThirdStep(steps: seq<Step>, s0: State, s4: State) returns (s: State)
    requires |steps| == 10 && steps[4] == Ingest(T(2), 20) && Reached(steps, s0, 4, s4) && HasParked(s4)
    ensures Reached(steps, s0, 5, s) && HasNext(s, B[..1])
  {
    ThirdTag(s4);
    s := NextTag(steps, s0, 4, s4);
  }

  lemma {:induction false} FourthStep(steps: seq<Step>, s0: State, s5: State) returns (s: State)
    requires |steps| == 10 && steps[5] == Ingest(T(3), 30) && Reached(steps, s0, 5, s5) && HasNext(s5, B[..1])
    ensures Reached(steps, s0, 6, s) && HasNext(s, B)
  {
    FourthTag(s5);
    s := NextTag(steps, s0, 5, s5);
  }

  lemma {:induction false} FifthStep(steps: seq<Step>, s0: State, s6: State) returns (s: State)
    requires |steps| == 10 && steps[6] == Ingest(T(4), 40) && Reached(steps, s0, 6, s6) && HasNext(s6, B)
    ensures Reached(steps, s0, 7, s) && HasLeft(s)
  {
    FifthTag(s6);
    s := NextTag(steps, s0, 6, s6);
  }

  lemma {:induction false} LeftIsLeft(steps: seq<Step>, s: State)
    requires Reached(steps, Initial(0), 7, s) && HasLeft(s)
    ensures Inv(s) && LeftBehind(s, CLIENT) && ClientOf(s, CLIENT).ctl.pauses == 1
  {
    EveryRun(0, steps[..7]);
    ClientAt(s, 0, CLIENT, s.buffers[0].requests[CLIENT]);
  }

  lemma {:induction false} Resumes(steps: seq<Step>, s0: State, s7: State) returns (s: State)
    requires |steps| == 10 && steps[7] == PauseOf(CLIENT, false) && steps[8] == AlarmOf(CLIENT, 0)
    requires Reached(steps, s0, 7, s7) && Inv(s7) && LeftBehind(s7, CLIENT) && ClientOf(s7, CLIENT).ctl.pauses == 1
    ensures Reached(steps, s0, 9, s) && Inv(s) && Has(s, CLIENT) && At(s, CLIENT) == 1 && |s.buffers| > 1
            && |s7.buffers| > 1
    ensures s.buffers[1].media == s7.buffers[1].media
    ensures ClientOf(s, CLIENT) == Progress(NewController(0), s7.sent[CLIENT])
  {
    LazyClientIsRevived(s7, CLIENT);
    LeftInFront(s7, CLIENT);
    Goes(steps, s0, 7, s7);
    var s8 := Do(s7, steps[7]);
    Goes(steps, s0, 8, s8);
    s := Do(s8, steps[8]);
  }

  predicate MediaFollowsEos(s: State, info: Info, tag: Tag) {
    CLIENT in s.sent && [Eos] + [SourceStarted] + [Announced(info)] + [Media(tag, 0)] <= s.sent[CLIENT]
  }

  lemma {:induction false} AlarmPlays(s: State) returns (info: Info)
    requires Inv(s) && Has(s, CLIENT) && s.buffers[At(s, CLIENT)].media == B
    requires ClientOf(s, CLIENT) == Progress(NewController(0), [Eos])
    ensures Offered(s, AlarmOf(CLIENT, 0)) && Survives(s, AlarmOf(CLIENT, 0))
    ensures MediaFollowsEos(Fired(s, CLIENT, 0), info, T(2))
  {
    RevivedClientIsPlayed(s, CLIENT);
    info := s.buffers[At(s, CLIENT)].info;
  }

  lemma {:induction false} IsPlayed(steps: seq<Step>, s0: State, s9: State) returns (s: State, info: Info)
    requires |steps| == 10 && steps[9] == AlarmOf(CLIENT, 0) && Reached(steps, s0, 9, s9) && Inv(s9) && Has(s9, CLIENT)
    requires ClientOf(s9, CLIENT) == Progress(NewController(0), [Eos]) && s9.buffers[At(s9, CLIENT)].media == B
    ensures Reached(steps, s0, 10, s) && MediaFollowsEos(s, info, T(2))
  {
    info := AlarmPlays(s9);
    Goes(steps, s0, 9, s9);
    s := Fired(s9, CLIENT, 0);
  }

  lemma {:induction false} FourSteps(steps: seq<Step>, s0: State) returns (s: State)
    requires steps == ThePauses() && HasNothing(s0)
    ensures Reached(steps, s0, 4, s) && HasParked(s)
  {
    var s2 := FirstTwo(steps, s0);
    s := NextTwo(steps, s0, s2);
  }

  lemma {:induction false} ThreeTags(steps: seq<Step>, s0: State, s4: State) returns (s: State)
    requires steps == ThePauses() && Reached(steps, s0, 4, s4) && HasParked(s4)
    ensures Reached(steps, s0, 7, s) && HasLeft(s)
  {
    var s5 := ThirdStep(steps, s0, s4);
    var s6 := FourthStep(steps, s0, s5);
    s := FifthStep(steps, s0, s6);
  }

  lemma {:induction false} ToTheEnd(steps: seq<Step>, s0: State, s7: State) returns (s: State, info: Info)
    requires steps == ThePauses() && Reached(steps, s0, 7, s7) && HasLeft(s7)
    requires Inv(s7) && LeftBehind(s7, CLIENT) && ClientOf(s7, CLIENT).ctl.pauses == 1
    ensures Reached(steps, s0, 10, s) && MediaFollowsEos(s, info, T(2))
  {
    var s9 := Resumes(steps, s0, s7);
    s, info := IsPlayed(steps, s0, s9);
  }

  /** The run: its client is sent media after the end of its stream. */
  lemma {:induction false} MediaAfterEos() returns (steps: seq<Step>, s: State, info: Info)
    ensures steps == ThePauses() && After(Initial(0), steps) == Some(s)
    ensures MediaFollowsEos(s, info, T(2))
  {
    steps := ThePauses();
    var s0 := Initial(0);
    var s4 := FourSteps(steps, s0);
    var s7 := ThreeTags(steps, s0, s4);
    LeftIsLeft(steps, s7);
    s, info := ToTheEnd(steps, s0, s7);
    assert steps[..10] == steps;
  }

  // ---------- a first tag that is no key frame ----------

  function N(n: int): Tag {
    Tag(Flv, false, n)
  }

  const C := [Stamped(T(0), 0), Stamped(N(1), 10)]

  /** Only the first of three tags is a key frame. A client joins 5 ms back, behind it, and is handed on. */
  function TheHandOver(): seq<Step> {
    [Ingest(T(0), 0), Ingest(N(1), 10), Ingest(N(2), 20), Add(CLIENT, 5), AlarmOf(CLIENT, 0), AlarmOf(CLIENT, 0)]
  }

  predicate HoldsTwo(s: State) {
    Bare(s, 1) && IsBuffer(s.buffers[0], 0, C, 0, true) && s.bufferOf == map[]
  }

  predicate HoldsThree(s: State) {
    && Bare(s, 2) && IsBuffer(s.buffers[0], 0, C, 0, false)
    && IsBuffer(s.buffers[1], 1, [Stamped(N(2), 0)], 20, true) && s.bufferOf == map[]
  }

  predicate Stands(s: State, k: nat, c: Controller) {
    && k < |s.buffers| && CLIENT in s.buffers[k].requests && s.buffers[k].requests[CLIENT] == c
    && CLIENT in s.sent && s.sent[CLIENT] == []
  }

  lemma {:induction false} KeyThenPlain(s: State)
    requires HasOne(s)
    ensures Survives(s, Ingest(N(1), 10)) && HoldsTwo(Do(s, Ingest(N(1), 10)))
  {
  }

  lemma {:induction false} PlainInNext(s: State)
    requires HoldsTwo(s)
    ensures Survives(s, Ingest(N(2), 20)) && HoldsThree(Do(s, Ingest(N(2), 20)))
  {
    TwoBuffersStay(StartBuffer(s));
  }

  lemma {:induction false} JoinsBehind(s: State)
    requires HoldsThree(s)
    ensures Offered(s, Add(CLIENT, 5))
    ensures Stands(Do(s, Add(CLIENT, 5)), 0, NewController(2)) && |Do(s, Add(CLIENT, 5)).buffers| == 2
    ensures var t := Do(s, Add(CLIENT, 5)); t.buffers[0].media == C && t.buffers[1].media == [Stamped(N(2), 0)]
    ensures var t := Do(s, Add(CLIENT, 5)); !t.buffers[0].active
  {
    assert s.buffers[..1][0] == s.buffers[0];
    assert FindSlot(s.buffers[..1], 5) == Some(Slot(0, 5));
    assert FindSlot(s.buffers, 5) == Some(Slot(0, 5));
    assert FirstIndex(C, 1, 5, true) == 2 && FirstIndex(C, 0, 5, true) == 2;
  }

  lemma {:induction false} HandsOver(s: State)
    requires Inv(s) && Stands(s, 0, NewController(2)) && |s.buffers| == 2 && !s.buffers[0].active
    requires s.buffers[0].media == C && s.buffers[1].media == [Stamped(N(2), 0)]
    ensures Offered(s, AlarmOf(CLIENT, 0)) && Survives(s, AlarmOf(CLIENT, 0))
    ensures var t := Do(s, AlarmOf(CLIENT, 0));
            Stands(t, 1, NewController(0)) && |t.buffers| == 2 && t.buffers[1].media == [Stamped(N(2), 0)]
  {
    ClientAt(s, 0, CLIENT, NewController(2));
    NoCheckFails(s, AlarmOf(CLIENT, 0));
  }

  lemma {:induction false} IsSentPlain(s: State)
    requires Inv(s) && Stands(s, 1, NewController(0)) && |s.buffers| == 2
    requires s.buffers[1].media == [Stamped(N(2), 0)]
    ensures Offered(s, AlarmOf(CLIENT, 0)) && Survives(s, AlarmOf(CLIENT, 0))
    ensures SentPlain(Do(s, AlarmOf(CLIENT, 0)), s.buffers[1].info)
  {
    ClientAt(s, 1, CLIENT, NewController(0));
    RevivedClientIsPlayed(s, CLIENT);
    assert s.sent[CLIENT] + [SourceStarted] == [SourceStarted];
  }

  predicate SentPlain(s: State, info: Info) {
    CLIENT in s.sent && [SourceStarted] + [Announced(info)] + [Media(N(2), 0)] <= s.sent[CLIENT]
  }

  lemma {:induction false} InvAt(steps: seq<Step>, n: nat, s: State)
    requires Reached(steps, Initial(0), n, s)
    ensures Inv(s)
  {
    EveryRun(0, steps[..n]);
  }

  lemma {:induction false} ThreeTagsIn(steps: seq<Step>, s0: State) returns (s: State)
    requires steps == TheHandOver() && HasNothing(s0)
    ensures Reached(steps, s0, 3, s) && HoldsThree(s)
  {
    assert steps[..0] == [];
    FirstTag(s0);
    var s1 := NextTag(steps, s0, 0, s0);
    KeyThenPlain(s1);
    var s2 := NextTag(steps, s0, 1, s1);
    PlainInNext(s2);
    s := NextTag(steps, s0, 2, s2);
  }

  lemma {:induction false} AddsAndHands(steps: seq<Step>, s0: State, s3: State) returns (s: State)
    requires steps == TheHandOver() && s0 == Initial(0) && Reached(steps, s0, 3, s3) && HoldsThree(s3)
    ensures Reached(steps, s0, 5, s) && Stands(s, 1, NewController(0)) && |s.buffers| == 2
    ensures s.buffers[1].media == [Stamped(N(2), 0)]
  {
    JoinsBehind(s3);
    Goes(steps, s0, 3, s3);
    var s4 := Do(s3, steps[3]);
    InvAt(steps, 4, s4);
    HandsOver(s4);
    Goes(steps, s0, 4, s4);
    s := Do(s4, steps[4]);
  }

  /** The run: the first tag its client is sent is no key frame. */
  lemma {:induction false} FirstTagIsPlain() returns (steps: seq<Step>, s: State, info: Info)
    ensures steps == TheHandOver() && After(Initial(0), steps) == Some(s) && SentPlain(s, info)
  {
    steps := TheHandOver();
    var s0 := Initial(0);
    var s3 := ThreeTagsIn(steps, s0);
    var s5 := AddsAndHands(steps, s0, s3);
    InvAt(steps, 5, s5);
    IsSentPlain(s5);
    Goes(steps, s0, 5, s5);
    s, info := Do(s5, steps[5]), s5.buffers[1].info;
    assert steps[..6] == steps;
  }
}
