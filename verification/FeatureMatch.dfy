/**
 Recognising a stored sequence of pictures in a stream: one call per frame, and the chains of
 results that end in a completed match.
 */
module FeatureMatch {
  datatype MatchResult = NoData | NoMatch | Broken | Begin | Cont | Completed | OverTime

  datatype MatchState = MatchState(last: int, firstTs: int, lastTs: int)

  const RESET := MatchState(-1, -1, -1)

  /** One frame: its timestamp, and how it compares with each stored feature, within the given
      distance or (large) within twice as much. */
  datatype Frame = Frame(timestamp: int, matches: (nat, bool) -> bool)

  /** The first feature from `k` on that is not left behind by the time that has passed. */
  function Candidate(times: seq<int>, last: nat, k: nat, elapsed: int): nat
    requires last < |times| && k <= |times|
    decreases |times| - k
  {
    if k < |times| && times[k] - times[last] < elapsed then Candidate(times, last, k + 1, elapsed) else k
  }

  /** The state a call starts from, after the two resets. */
  function Started(times: seq<int>, s: MatchState, f: Frame): MatchState {
    if s.last >= |times| - 1 || (s.last >= 0 && s.lastTs > f.timestamp) then RESET else s
  }

  function Step(times: seq<int>, s: MatchState, f: Frame): (MatchResult, MatchState)
    requires s.last >= -1
  {
    if times == [] then (NoData, s)
    else
      var t := Started(times, s, f);
      if t.last == -1 then
        if !f.matches(0, false) then (NoMatch, t)
        else (if |times| == 1 then Completed else Begin, MatchState(0, f.timestamp, f.timestamp))
      else
        var k := Candidate(times, t.last, t.last + 1, f.timestamp - t.lastTs);
        if k >= |times| then (OverTime, t.(last := k))
        else if !f.matches(k, true) then (Broken, RESET)
        else (if k == |times| - 1 then Completed else Cont, t.(last := k, lastTs := f.timestamp))
  }

  lemma {:induction false} CandidateSpec(times: seq<int>, last: nat, k: nat, elapsed: int)
    requires last < |times| && k <= |times|
    ensures var c := Candidate(times, last, k, elapsed);
            && k <= c <= |times|
            && (c < |times| ==> times[c] - times[last] >= elapsed)
            && (forall i :: k <= i < c ==> times[i] - times[last] < elapsed)
    decreases |times| - k
  {
    if k < |times| && times[k] - times[last] < elapsed { CandidateSpec(times, last, k + 1, elapsed); }
  }

  // ---------- one call ----------

  /** No match is in progress when this frame comes: none was, or it had come to its end, or time went back. */
  predicate StartsAnew(times: seq<int>, s: MatchState, f: Frame) {
    s.last < 0 || s.last >= |times| - 1 || f.timestamp < s.lastTs
  }

  /** The stored feature `c` is the first behind `last` that the time between the frames has not overtaken. */
  ghost predicate IsDue(times: seq<int>, s: MatchState, f: Frame, c: int) {
    && 0 <= s.last < c < |times|
    && times[c] - times[s.last] >= f.timestamp - s.lastTs
    && (forall i :: s.last < i < c ==> times[i] - times[s.last] < f.timestamp - s.lastTs)
  }

  /** A frame that matches the first feature begins a match, if none is in progress. */
  lemma {:induction false} BeginsExactly(times: seq<int>, s: MatchState, f: Frame)
    requires times != [] && s.last >= -1 && StartsAnew(times, s, f)
    ensures var (r, t) := Step(times, s, f);
            if !f.matches(0, false) then r == NoMatch && t.last == -1
            else r == (if |times| == 1 then Completed else Begin) && t == MatchState(0, f.timestamp, f.timestamp)
  {
  }

  /** A match in progress goes on exactly with a frame that matches the feature that is due; it is broken by one
      that does not, and given up when none is due. */
  lemma {:induction false} ContinuesExactly(times: seq<int>, s: MatchState, f: Frame)
    requires s.last >= -1 && !StartsAnew(times, s, f)
    ensures var (r, t) := Step(times, s, f);
            && (forall c :: IsDue(times, s, f, c) ==>
                  if !f.matches(c, true) then r == Broken && t.last == -1
                  else r == (if c == |times| - 1 then Completed else Cont)
                       && t == MatchState(c, s.firstTs, f.timestamp))
            && ((forall c :: !IsDue(times, s, f, c)) ==> r == OverTime && t.last >= |times|)
  {
    var k := Candidate(times, s.last, s.last + 1, f.timestamp - s.lastTs);
    CandidateSpec(times, s.last, s.last + 1, f.timestamp - s.lastTs);
    if k < |times| { assert IsDue(times, s, f, k); }
  }

  /** A match goes on behind BEGIN and CONT, unless time goes back; behind any other result a new one starts. */
  lemma {:induction false} InProgressExactly(times: seq<int>, s: MatchState, f: Frame, next: Frame)
    requires times != [] && s.last >= -1
    ensures var (r, t) := Step(times, s, f);
            StartsAnew(times, t, next) <==> r !in {Begin, Cont} || next.timestamp < f.timestamp
  {
    if !StartsAnew(times, s, f) {
      CandidateSpec(times, s.last, s.last + 1, f.timestamp - s.lastTs);
    }
  }

  // ---------- runs ----------

  function StateAfter(times: seq<int>, frames: seq<Frame>, k: nat): (s: MatchState)
    requires k <= |frames|
    ensures s.last >= -1
  {
    if k == 0 then RESET else Step(times, StateAfter(times, frames, k - 1), frames[k - 1]).1
  }

  function ResultOf(times: seq<int>, frames: seq<Frame>, k: nat): MatchResult
    requires k < |frames|
  {
    Step(times, StateAfter(times, frames, k), frames[k]).0
  }

  /** Frame j moves on to a strictly later stored feature, which it matches, and not back in time. */
  ghost predicate Link(times: seq<int>, frames: seq<Frame>, j: nat)
    requires 0 < j < |frames|
  {
    var before, after := StateAfter(times, frames, j).last, StateAfter(times, frames, j + 1).last;
    && (ResultOf(times, frames, j) == Cont || ResultOf(times, frames, j) == Completed)
    && 0 <= before < after < |times|
    && frames[j].matches(after, true)
    && frames[j - 1].timestamp <= frames[j].timestamp
  }

  /** Frames b, ..., e - 1 follow the stored sequence: the first begins the match, the others are
      links, and together they take no more time than the features they were matched with. */
  ghost predicate Chain(times: seq<int>, frames: seq<Frame>, b: nat, e: nat)
    requires e <= |frames|
  {
    && b < e
    && ResultOf(times, frames, b) == Begin && frames[b].matches(0, false)
    && StateAfter(times, frames, b + 1).last == 0
    && (forall j {:trigger Link(times, frames, j)} :: b < j < e ==> Link(times, frames, j))
    && 0 <= StateAfter(times, frames, e).last < |times|
    && frames[e - 1].timestamp - frames[b].timestamp <= times[StateAfter(times, frames, e).last] - times[0]
  }

  ghost predicate AllCont(times: seq<int>, frames: seq<Frame>, b: nat, e: nat)
    requires e <= |frames|
  {
    forall j :: b < j < e ==> ResultOf(times, frames, j) == Cont
  }

  ghost predicate Unfinished(times: seq<int>, frames: seq<Frame>, b: nat, e: nat)
    requires e <= |frames|
  {
    && Chain(times, frames, b, e)
    && AllCont(times, frames, b, e)
    && StateAfter(times, frames, e).lastTs == frames[e - 1].timestamp
    && StateAfter(times, frames, e).firstTs == frames[b].timestamp
  }

  /** What a continuing call does. */
  lemma {:induction false} StepFacts(times: seq<int>, s: MatchState, f: Frame)
    requires times != [] && 0 <= s.last < |times| - 1 && Started(times, s, f) == s
    requires Step(times, s, f).0 == Cont || Step(times, s, f).0 == Completed
    ensures var t := Step(times, s, f).1;
            && s.last < t.last < |times| && f.matches(t.last, true)
            && t.lastTs == f.timestamp && t.firstTs == s.firstTs
            && s.lastTs <= f.timestamp
            && f.timestamp - s.lastTs <= times[t.last] - times[s.last]
            && (Step(times, s, f).0 == Completed <==> t.last == |times| - 1)
  {
    CandidateSpec(times, s.last, s.last + 1, f.timestamp - s.lastTs);
  }

  lemma {:induction false} ExtendChain(times: seq<int>, frames: seq<Frame>, b: nat, e: nat)
    requires |times| >= 2 && e < |frames| && Unfinished(times, frames, b, e)
    requires StateAfter(times, frames, e).last < |times| - 1
    requires Started(times, StateAfter(times, frames, e), frames[e]) == StateAfter(times, frames, e)
    requires ResultOf(times, frames, e) == Cont || ResultOf(times, frames, e) == Completed
    ensures Chain(times, frames, b, e + 1)
    ensures StateAfter(times, frames, e + 1).lastTs == frames[e].timestamp
    ensures StateAfter(times, frames, e + 1).firstTs == frames[b].timestamp
    ensures ResultOf(times, frames, e) == Completed <==> StateAfter(times, frames, e + 1).last == |times| - 1
  {
    StepFacts(times, StateAfter(times, frames, e), frames[e]);
    assert StateAfter(times, frames, e + 1) == Step(times, StateAfter(times, frames, e), frames[e]).1;
    assert Link(times, frames, e);
  }

  /** How a call can leave a match in progress: by beginning one, or by continuing one. */
  lemma {:induction false} InProgressBy(times: seq<int>, s: MatchState, f: Frame)
    requires |times| >= 2 && s.last >= -1
    requires 0 <= Step(times, s, f).1.last < |times| - 1
    ensures || (&& Step(times, s, f).0 == Begin && f.matches(0, false)
                && Step(times, s, f).1 == MatchState(0, f.timestamp, f.timestamp))
            || (Started(times, s, f) == s && 0 <= s.last < |times| - 1 && Step(times, s, f).0 == Cont)
  {
    var t := Started(times, s, f);
    if t.last >= 0 { CandidateSpec(times, t.last, t.last + 1, f.timestamp - t.lastTs); }
  }

  /** A match in progress is the end of such a chain. */
  lemma {:induction false} InProgressIsChain(times: seq<int>, frames: seq<Frame>, k: nat) returns (b: nat)
    requires |times| >= 2 && k <= |frames|
    requires 0 <= StateAfter(times, frames, k).last < |times| - 1
    ensures b < k && Unfinished(times, frames, b, k)
  {
    assert StateAfter(times, frames, 0) == RESET;
    InProgressBy(times, StateAfter(times, frames, k - 1), frames[k - 1]);
    if ResultOf(times, frames, k - 1) == Begin {
      b := k - 1;
    } else {
      b := InProgressIsChain(times, frames, k - 1);
      ExtendChain(times, frames, b, k - 1);
    }
  }

  /** Every completed match of two or more features ends a consecutive BEGIN, CONT, ..., COMPLETED
      chain over the whole stored sequence, and its frames span no more time than the features. */
  lemma {:induction false} CompletedMatchIsChain(times: seq<int>, frames: seq<Frame>, k: nat) returns (b: nat)
    requires |times| >= 2 && k < |frames| && ResultOf(times, frames, k) == Completed
    ensures b < k && Chain(times, frames, b, k + 1) && AllCont(times, frames, b, k)
    ensures StateAfter(times, frames, k + 1).last == |times| - 1
    ensures frames[k].timestamp - frames[b].timestamp <= times[|times| - 1] - times[0]
  {
    var s := StateAfter(times, frames, k);
    assert Started(times, s, frames[k]) == s && 0 <= s.last < |times| - 1;
    b := InProgressIsChain(times, frames, k);
    ExtendChain(times, frames, b, k);
  }

  /** The frames are those of the stored sequence, each at its time from the first and like its feature. */
  ghost predicate Replays(times: seq<int>, frames: seq<Frame>) {
    && |frames| == |times| > 0 && frames[0].matches(0, false)
    && (forall j :: 0 <= j < |times| ==> frames[j].timestamp - frames[0].timestamp == times[j] - times[0])
    && (forall j :: 0 < j < |times| ==> times[j - 1] <= times[j] && frames[j].matches(j, true))
  }

  /** A replay of the stored sequence is recognised, frame by frame. */
  lemma {:induction false} ReplayIsRecognised(times: seq<int>, frames: seq<Frame>, k: nat)
    requires Replays(times, frames) && k < |times|
    ensures ResultOf(times, frames, k) == if k == |times| - 1 then Completed else if k == 0 then Begin else Cont
    ensures StateAfter(times, frames, k + 1) == MatchState(k, frames[0].timestamp, frames[k].timestamp)
  {
    var s := StateAfter(times, frames, k);
    assert StateAfter(times, frames, k + 1) == Step(times, s, frames[k]).1;
    if k > 0 {
      ReplayIsRecognised(times, frames, k - 1);
      assert IsDue(times, s, frames[k], k);
      ContinuesExactly(times, s, frames[k]);
    }
  }

  /** A call never leaves a frame behind: what is skipped is older than the time that has passed. */
  lemma {:induction false} SkippedAreOverdue(times: seq<int>, s: MatchState, f: Frame, i: int)
    requires s.last >= 0 && times != [] && Step(times, s, f).0 in {Cont, OverTime}
    requires s.last < i < Step(times, s, f).1.last && i < |times|
    ensures times[i] - times[s.last] < f.timestamp - s.lastTs
  {
    CandidateSpec(times, s.last, s.last + 1, f.timestamp - s.lastTs);
  }

  // ---------- the object ----------

  class FeatureSet {
    var times: seq<int>
    var last: int
    var firstTs: int
    var lastTs: int

    constructor (times: seq<int>)
      ensures this.times == times && State() == RESET
    {
      this.times := times;
      last, firstTs, lastTs := -1, -1, -1;
    }

    function State(): MatchState
      reads this
    {
      MatchState(last, firstTs, lastTs)
    }

    method ResetMatch()
      modifies this`last, this`firstTs, this`lastTs
      ensures State() == RESET
    {
      last, firstTs, lastTs := -1, -1, -1;
    }

    method MatchNext(f: Frame) returns (r: MatchResult)
      requires last >= -1
      modifies this`last, this`firstTs, this`lastTs
      ensures (r, State()) == Step(times, old(State()), f) && last >= -1
    {
      if times == [] {
        return NoData;
      }
      if last >= |times| - 1 {
        ResetMatch();
      }
      if last >= 0 && lastTs > f.timestamp {
        ResetMatch();
      }
      if last == -1 {
        if !f.matches(0, false) {
          return NoMatch;
        }
        last, lastTs, firstTs := 0, f.timestamp, f.timestamp;
        return if |times| == 1 then Completed else Begin;
      }
      var k := last + 1;
      while k < |times| && times[k] - times[last] < f.timestamp - lastTs
        invariant last < k <= |times|
        invariant Candidate(times, last, k, f.timestamp - lastTs)
                  == Candidate(times, last, last + 1, f.timestamp - lastTs)
      {
        k := k + 1;
      }
      if k >= |times| {
        last := k;
        return OverTime;
      }
      if !f.matches(k, true) {
        ResetMatch();
        return Broken;
      }
      last, lastTs := k, f.timestamp;
      r := if k == |times| - 1 then Completed else Cont;
    }
  }
}
