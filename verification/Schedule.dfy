/**
 The scheduled playlist: which item plays at an instant, until when, and the programme chained out of that.
 */
module Schedule {
  import opened Options
  import opened Ints

  const INVALID_ID := -1
  const MIN_SCHEDULE_ERROR := 100
  const MAX_EVENT_MS := 365 * 86000 * 1000
  const UNDEFINED_EVENT_SEC := 20

  /** When an item starts. `prev` and `next` stand for PrevHappening and NextFutureHappening;
      `occurs` is the (possibly infinite) set of start times they answer about. */
  datatype TimeSpec = TimeSpec(
    occurs: int -> bool,
    prev: int -> Option<int>,
    next: int -> Option<int>,
    durationSec: Option<int>)

  datatype Item = Item(id: int, media: string, time: TimeSpec)

  datatype ScheduleItem = ScheduleItem(id: int, begin: int, switch: int, end: int)

  /** The latest start at or before `now`. */
  ghost predicate IsPrev(t: TimeSpec, now: int) {
    match t.prev(now)
    case None => forall q :: q <= now ==> !t.occurs(q)
    case Some(p) => p <= now && t.occurs(p) && forall q :: p < q <= now ==> !t.occurs(q)
  }

  /** The earliest start strictly after `now`. */
  ghost predicate IsNext(t: TimeSpec, now: int) {
    match t.next(now)
    case None => forall q :: q > now ==> !t.occurs(q)
    case Some(p) => p > now && t.occurs(p) && forall q :: now < q < p ==> !t.occurs(q)
  }

  ghost predicate Sound(t: TimeSpec) {
    forall now :: IsPrev(t, now) && IsNext(t, now)
  }

  function DurationMs(t: TimeSpec): (ms: int)
    ensures ms >= 1000
  {
    1000 * if t.durationSec.Some? && t.durationSec.value > 0 then t.durationSec.value else UNDEFINED_EVENT_SEC
  }

  ghost predicate ValidPlaylist(specs: seq<Item>) {
    forall k :: 0 <= k < |specs| ==>
      Sound(specs[k].time) && specs[k].id != INVALID_ID && DurationMs(specs[k].time) <= MAX_EVENT_MS
  }

  ghost predicate DistinctIds(specs: seq<Item>) {
    forall j, k :: 0 <= j < k < |specs| ==> specs[j].id != specs[k].id
  }

  // ---------- the current item ----------

  function DefaultItem(now: int): ScheduleItem {
    ScheduleItem(INVALID_ID, now - MAX_EVENT_MS, now - MAX_EVENT_MS, now + MAX_EVENT_MS)
  }

  /** One iteration of the selection loop. */
  function Consider(best: ScheduleItem, item: Item, now: int): ScheduleItem {
    match item.time.prev(now)
    case None => best
    case Some(begin) =>
      var end := begin + DurationMs(item.time);
      var chosen :=
        if end >= now && begin > best.begin
        then ScheduleItem(item.id, begin, if best.switch < begin then begin else best.switch, end)
        else best;
      if end <= now && begin > chosen.begin && end > chosen.switch then chosen.(switch := end) else chosen
  }

  /** The loop over the first `k` items. The source walks a hash map in an unspecified order; a playlist here is a
      sequence in some fixed order, and every theorem holds for all of them. */
  function CurrentTo(specs: seq<Item>, k: nat, now: int): ScheduleItem
    requires k <= |specs|
  {
    if k == 0 then DefaultItem(now) else Consider(CurrentTo(specs, k - 1, now), specs[k - 1], now)
  }

  function Current(specs: seq<Item>, now: int): ScheduleItem {
    CurrentTo(specs, |specs|, now)
  }

  function EndOf(item: Item, begin: int): int {
    begin + DurationMs(item.time)
  }

  predicate InProgress(item: Item, now: int) {
    match item.time.prev(now)
    case None => false
    case Some(b) => now - MAX_EVENT_MS < b && now <= EndOf(item, b)
  }

  predicate Finished(item: Item, now: int) {
    match item.time.prev(now)
    case None => false
    case Some(b) => EndOf(item, b) < now
  }

  function BeginOf(item: Item, now: int): int
    requires item.time.prev(now).Some?
  {
    item.time.prev(now).value
  }

  /** `w` is the first item, in iteration order, among those in progress with the latest start. */
  ghost predicate IsWinner(specs: seq<Item>, k: nat, now: int, w: nat) {
    && w < k <= |specs|
    && InProgress(specs[w], now)
    && (forall j :: 0 <= j < k && InProgress(specs[j], now) ==> BeginOf(specs[j], now) <= BeginOf(specs[w], now))
    && (forall j :: 0 <= j < w && InProgress(specs[j], now) ==> BeginOf(specs[j], now) < BeginOf(specs[w], now))
  }

  ghost predicate NothingInProgress(specs: seq<Item>, k: nat, now: int)
    requires k <= |specs|
  {
    forall j :: 0 <= j < k ==> !InProgress(specs[j], now)
  }

  lemma {:induction false} FinishedBeforeSwitch(specs: seq<Item>, k: nat, now: int)
    requires ValidPlaylist(specs) && k <= |specs|
    ensures var c := CurrentTo(specs, k, now);
            && c.begin <= c.switch <= now
            && now - MAX_EVENT_MS <= c.begin
            && (forall j :: 0 <= j < k && Finished(specs[j], now) && BeginOf(specs[j], now) > c.begin ==>
                  EndOf(specs[j], BeginOf(specs[j], now)) <= c.switch)
  {
    if k > 0 {
      FinishedBeforeSwitch(specs, k - 1, now);
      assert IsPrev(specs[k - 1].time, now);
    }
  }

  /** `w` is the winner and gives the begin and the end, or there is none and the default stands. */
  ghost predicate GivenBy(specs: seq<Item>, k: nat, now: int, w: nat)
    requires k <= |specs|
  {
    var c := CurrentTo(specs, k, now);
    if c.id == INVALID_ID
    then NothingInProgress(specs, k, now) && c.begin == now - MAX_EVENT_MS && c.end == now + MAX_EVENT_MS
    else IsWinner(specs, k, now, w) && c.id == specs[w].id
         && c.begin == BeginOf(specs[w], now) && c.end == EndOf(specs[w], c.begin)
  }

  lemma {:induction false} GivenByOneMore(specs: seq<Item>, k: nat, now: int, w: nat) returns (v: nat)
    requires ValidPlaylist(specs) && 0 < k <= |specs| && GivenBy(specs, k - 1, now, w)
    ensures GivenBy(specs, k, now, v)
  {
    var item := specs[k - 1];
    assert IsPrev(item.time, now);
    v := if InProgress(item, now) && BeginOf(item, now) > CurrentTo(specs, k - 1, now).begin then k - 1 else w;
  }

  lemma {:induction false} SomeGives(specs: seq<Item>, k: nat, now: int) returns (w: nat)
    requires ValidPlaylist(specs) && k <= |specs|
    ensures GivenBy(specs, k, now, w)
  {
    w := 0;
    if k > 0 {
      w := SomeGives(specs, k - 1, now);
      w := GivenByOneMore(specs, k, now, w);
    }
  }

  /** The documented order of the four outputs, who wins, and the lower bound on the switch time. */
  lemma {:induction false} CurrentSpec(specs: seq<Item>, k: nat, now: int) returns (w: nat)
    requires ValidPlaylist(specs) && k <= |specs|
    ensures var c := CurrentTo(specs, k, now);
            && c.begin <= c.switch <= now <= c.end
            && now - MAX_EVENT_MS <= c.begin
            && GivenBy(specs, k, now, w)
            && (forall j :: 0 <= j < k && Finished(specs[j], now) && BeginOf(specs[j], now) > c.begin ==>
                  EndOf(specs[j], BeginOf(specs[j], now)) <= c.switch)
  {
    FinishedBeforeSwitch(specs, k, now);
    w := SomeGives(specs, k, now);
  }

  /** `item` started at `b` and, for as long as it lasts, is the latest of its own starts: with a duration it lasts
      that many seconds, else 20 seconds, and nothing counts that started 31390000 seconds ago or more. */
  ghost predicate StartedAt(item: Item, b: int, now: int) {
    && item.time.occurs(b) && now - 31_390_000_000 < b <= now
    && (forall q :: b < q <= now ==> !item.time.occurs(q))
    && now <= b + match item.time.durationSec
                  case None => 20_000
                  case Some(d) => if d > 0 then 1000 * d else 20_000
  }

  lemma {:induction false} InProgressExactly(item: Item, b: int, now: int)
    requires Sound(item.time)
    ensures InProgress(item, now) && BeginOf(item, now) == b <==> StartedAt(item, b, now)
  {
    assert IsPrev(item.time, now);
  }

  /** The end of item `j`, finished by `now`, raises the switch time: nothing before it in the walk that is in
      progress started at its start or later. */
  ghost predicate Raises(specs: seq<Item>, j: nat, now: int)
    requires j < |specs|
  {
    && Finished(specs[j], now) && now - MAX_EVENT_MS < BeginOf(specs[j], now)
    && forall i :: 0 <= i < j && InProgress(specs[i], now) ==> BeginOf(specs[i], now) < BeginOf(specs[j], now)
  }

  lemma {:induction false} LaterBegins(specs: seq<Item>, k: nat, now: int, i: nat)
    requires ValidPlaylist(specs) && i < k <= |specs| && InProgress(specs[i], now)
    ensures BeginOf(specs[i], now) <= CurrentTo(specs, k, now).begin
  {
    var w := SomeGives(specs, k, now);
  }

  lemma {:induction false} NothingLater(specs: seq<Item>, k: nat, now: int)
    requires ValidPlaylist(specs) && k <= |specs|
    ensures CurrentTo(specs, k, now).begin == now - MAX_EVENT_MS
            || exists w :: 0 <= w < k && InProgress(specs[w], now)
                           && BeginOf(specs[w], now) == CurrentTo(specs, k, now).begin
  {
    var w := SomeGives(specs, k, now);
  }

  /** Nothing that raises the switch time ends behind it. */
  lemma {:induction false} RaisesAtMost(specs: seq<Item>, k: nat, now: int, j: nat)
    requires ValidPlaylist(specs) && j < k <= |specs| && Raises(specs, j, now)
    ensures EndOf(specs[j], BeginOf(specs[j], now)) <= CurrentTo(specs, k, now).switch
  {
    if j < k - 1 {
      RaisesAtMost(specs, k - 1, now, j);
      Monotone(specs, k - 1, k, now);
    } else {
      NothingLater(specs, j, now);
    }
  }

  /** It is the begin, or the end of something that raises it. */
  lemma {:induction false} SwitchIsEnd(specs: seq<Item>, k: nat, now: int) returns (j: nat)
    requires ValidPlaylist(specs) && k <= |specs| && CurrentTo(specs, k, now).switch != CurrentTo(specs, k, now).begin
    ensures j < k && Raises(specs, j, now) && EndOf(specs[j], BeginOf(specs[j], now)) == CurrentTo(specs, k, now).switch
  {
    FinishedBeforeSwitch(specs, k - 1, now);
    if CurrentTo(specs, k, now).switch == CurrentTo(specs, k - 1, now).switch {
      j := SwitchIsEnd(specs, k - 1, now);
    } else {
      j := k - 1;
      assert IsPrev(specs[j].time, now);
      forall i | 0 <= i < j && InProgress(specs[i], now) ensures BeginOf(specs[i], now) < BeginOf(specs[j], now) {
        LaterBegins(specs, j, now, i);
      }
    }
  }

  /** In a given order the switch time is exactly the latest of the begin and the ends that raise it. */
  lemma {:induction false} SwitchIsLatest(specs: seq<Item>, k: nat, now: int)
    requires ValidPlaylist(specs) && k <= |specs|
    ensures var c := CurrentTo(specs, k, now);
            && (forall j :: 0 <= j < k && Raises(specs, j, now) ==> EndOf(specs[j], BeginOf(specs[j], now)) <= c.switch)
            && (c.switch == c.begin ||
                exists j :: 0 <= j < k && Raises(specs, j, now) && EndOf(specs[j], BeginOf(specs[j], now)) == c.switch)
  {
    forall j | 0 <= j < k && Raises(specs, j, now)
      ensures EndOf(specs[j], BeginOf(specs[j], now)) <= CurrentTo(specs, k, now).switch
    {
      RaisesAtMost(specs, k, now, j);
    }
    if CurrentTo(specs, k, now).switch != CurrentTo(specs, k, now).begin {
      var j := SwitchIsEnd(specs, k, now);
    }
  }

  // ---------- the switch time and the iteration order ----------

  /** `v` is the larger of `begin` and the ends of the finished occurrences that started after it. */
  ghost predicate IsOrderFreeSwitch(specs: seq<Item>, now: int, begin: int, v: int) {
    && begin <= v
    && (forall item :: item in specs && Finished(item, now) && BeginOf(item, now) > begin ==>
          EndOf(item, BeginOf(item, now)) <= v)
    && (v == begin ||
        (exists item :: item in specs && Finished(item, now) && BeginOf(item, now) > begin &&
                        EndOf(item, BeginOf(item, now)) == v))
  }

  /** A finished occurrence that started no later than `begin` and ended after `v`. */
  predicate Straddles(item: Item, now: int, begin: int, v: int) {
    && Finished(item, now)
    && now - MAX_EVENT_MS < BeginOf(item, now) <= begin
    && v < EndOf(item, BeginOf(item, now))
  }

  ghost predicate NoStraddler(specs: seq<Item>, now: int, begin: int, v: int) {
    forall item :: item in specs ==> !Straddles(item, now, begin, v)
  }

  lemma {:induction false} Monotone(specs: seq<Item>, j: nat, k: nat, now: int)
    requires j <= k <= |specs|
    ensures CurrentTo(specs, j, now).begin <= CurrentTo(specs, k, now).begin
    ensures CurrentTo(specs, j, now).switch <= CurrentTo(specs, k, now).switch
  {
    if j < k { Monotone(specs, j, k - 1, now); }
  }

  /** One step stays below `v` when what it accepts does. */
  lemma {:induction false} ConsiderAtMost(best: ScheduleItem, item: Item, now: int, v: int)
    requires now - MAX_EVENT_MS <= best.begin && best.switch <= v
    requires item.time.prev(now).Some? ==>
               var b := BeginOf(item, now);
               && (InProgress(item, now) ==> b <= v)
               && (Finished(item, now) && now - MAX_EVENT_MS < b ==> EndOf(item, b) <= v)
    ensures Consider(best, item, now).switch <= v
  {
  }

  lemma {:induction false} SwitchAtMost(specs: seq<Item>, k: nat, now: int, begin: int, v: int)
    requires ValidPlaylist(specs) && k <= |specs|
    requires begin == Current(specs, now).begin
    requires IsOrderFreeSwitch(specs, now, begin, v) && NoStraddler(specs, now, begin, v)
    ensures CurrentTo(specs, k, now).switch <= v
  {
    Monotone(specs, 0, |specs|, now);
    if k > 0 {
      SwitchAtMost(specs, k - 1, now, begin, v);
      Monotone(specs, 0, k - 1, now);
      var item := specs[k - 1];
      assert item in specs;
      if InProgress(item, now) {
        var w := CurrentSpec(specs, |specs|, now);
      }
      ConsiderAtMost(CurrentTo(specs, k - 1, now), item, now, v);
    }
  }

  ghost predicate SameItems(p: seq<Item>, q: seq<Item>) {
    multiset(p) == multiset(q)
  }

  lemma {:induction false} SameItemsMembers(p: seq<Item>, q: seq<Item>)
    requires SameItems(p, q)
    ensures forall item :: item in p <==> item in q
    ensures ValidPlaylist(p) ==> ValidPlaylist(q)
  {
    forall item ensures item in p <==> item in q {
      assert item in multiset(p) <==> item in multiset(q);
    }
    if ValidPlaylist(p) {
      forall k | 0 <= k < |q|
        ensures Sound(q[k].time) && q[k].id != INVALID_ID && DurationMs(q[k].time) <= MAX_EVENT_MS
      {
        assert q[k] in p;
      }
    }
  }

  /** The chosen start does not depend on the iteration order. */
  lemma {:induction false} BeginIsOrderFree(p: seq<Item>, q: seq<Item>, now: int)
    requires ValidPlaylist(p) && SameItems(p, q)
    ensures Current(p, now).begin == Current(q, now).begin
    ensures Current(p, now).id == INVALID_ID <==> Current(q, now).id == INVALID_ID
  {
    SameItemsMembers(p, q);
    var v := CurrentSpec(p, |p|, now);
    var w := CurrentSpec(q, |q|, now);
    if Current(p, now).id != INVALID_ID { assert p[v] in q; }
    if Current(q, now).id != INVALID_ID { assert q[w] in p; }
  }

  function ToFront(specs: seq<Item>, j: nat): seq<Item>
    requires j < |specs|
  {
    [specs[j]] + specs[..j] + specs[j + 1..]
  }

  lemma {:induction false} ToFrontSameItems(specs: seq<Item>, j: nat)
    requires j < |specs|
    ensures SameItems(specs, ToFront(specs, j))
  {
    assert specs == specs[..j] + [specs[j]] + specs[j + 1..];
  }

  /** Exactly when the reported switch time is independent of the hash-map order: no finished
      occurrence straddles the winner's start. `v` is the value every order then reports. */
  lemma {:induction false} SwitchOrderIndependence(specs: seq<Item>, now: int, v: int)
    requires ValidPlaylist(specs)
    requires IsOrderFreeSwitch(specs, now, Current(specs, now).begin, v)
    ensures (forall q :: SameItems(specs, q) ==> Current(q, now).switch == v)
            <==> NoStraddler(specs, now, Current(specs, now).begin, v)
  {
    var begin := Current(specs, now).begin;
    if NoStraddler(specs, now, begin, v) {
      forall q | SameItems(specs, q) ensures Current(q, now).switch == v {
        SameItemsMembers(specs, q);
        BeginIsOrderFree(specs, q, now);
        SwitchAtMost(q, |q|, now, begin, v);
        var w := CurrentSpec(q, |q|, now);
      }
    } else {
      var item :| item in specs && Straddles(item, now, begin, v);
      var j :| 0 <= j < |specs| && specs[j] == item;
      ToFrontSameItems(specs, j);
      var q := ToFront(specs, j);
      assert q[0] == item && CurrentTo(q, 1, now) == Consider(CurrentTo(q, 0, now), item, now);
      Monotone(q, 1, |q|, now);
      assert Current(q, now).switch > v;
    }
  }

  // ---------- the future item ----------

  function FutureTo(specs: seq<Item>, k: nat, now: int): (int, int)
    requires k <= |specs|
  {
    if k == 0 then (INVALID_ID, now + MAX_EVENT_MS)
    else
      var best := FutureTo(specs, k - 1, now);
      match specs[k - 1].time.next(now)
      case None => best
      case Some(begin) => if begin < best.1 then (specs[k - 1].id, begin) else best
  }

  lemma {:induction false} FutureSpec(specs: seq<Item>, k: nat, now: int)
    requires ValidPlaylist(specs) && k <= |specs|
    ensures var f := FutureTo(specs, k, now);
            && now < f.1 <= now + MAX_EVENT_MS
            && (forall j, q :: 0 <= j < k && now < q < f.1 ==> !specs[j].time.occurs(q))
            && (f.1 < now + MAX_EVENT_MS ==>
                  exists j :: 0 <= j < k && specs[j].id == f.0 && specs[j].time.occurs(f.1)
                              && forall i :: 0 <= i < j ==> !specs[i].time.occurs(f.1))
            && (f.1 == now + MAX_EVENT_MS ==> f.0 == INVALID_ID)
  {
    if k > 0 {
      FutureSpec(specs, k - 1, now);
      assert IsNext(specs[k - 1].time, now);
    }
  }

  // ---------- the item at an instant ----------

  function ItemAt(specs: seq<Item>, now: int): ScheduleItem {
    var c := Current(specs, now);
    var f := FutureTo(specs, |specs|, now).1;
    if f < c.end then c.(end := f) else c
  }

  /** With no start in (now, t], the last start before t is the last start before now. */
  lemma {:induction false} PrevUnchanged(t: TimeSpec, now: int, later: int)
    requires Sound(t) && now <= later
    requires forall q :: now < q <= later ==> !t.occurs(q)
    ensures t.prev(later) == t.prev(now)
  {
    assert IsPrev(t, now) && IsPrev(t, later);
  }

  lemma {:induction false} QuietUntilEnd(specs: seq<Item>, now: int, t: int)
    requires ValidPlaylist(specs) && now <= t < ItemAt(specs, now).end
    ensures forall j :: 0 <= j < |specs| ==> specs[j].time.prev(t) == specs[j].time.prev(now)
  {
    FutureSpec(specs, |specs|, now);
    forall j | 0 <= j < |specs| ensures specs[j].time.prev(t) == specs[j].time.prev(now) {
      PrevUnchanged(specs[j].time, now, t);
    }
  }

  /** Until the reported end the answer does not change; only the end of a default entry, one
      horizon ahead of the query, moves with the query. */
  lemma {:induction false} WinnerStability(specs: seq<Item>, now: int, t: int)
    requires ValidPlaylist(specs) && now <= t < ItemAt(specs, now).end
    ensures var a, b := ItemAt(specs, now), ItemAt(specs, t);
            && a.id == b.id
            && (a.id != INVALID_ID ==> a.begin == b.begin && a.end == b.end)
            && (a.id == INVALID_ID && a.end < now + MAX_EVENT_MS ==> a.end == b.end)
  {
    QuietUntilEnd(specs, now, t);
    var w := CurrentSpec(specs, |specs|, now);
    var v := CurrentSpec(specs, |specs|, t);
    FutureSpec(specs, |specs|, now);
    FutureSpec(specs, |specs|, t);
    if Current(specs, now).id != INVALID_ID {
      assert InProgress(specs[w], t);
      assert InProgress(specs[v], now);
      assert v == w;
    }
    FutureUnchanged(specs, now, t);
  }

  lemma {:induction false} FutureUnchanged(specs: seq<Item>, now: int, t: int)
    requires ValidPlaylist(specs) && now <= t < FutureTo(specs, |specs|, now).1
    ensures var f, g := FutureTo(specs, |specs|, now).1, FutureTo(specs, |specs|, t).1;
            f <= g && (f < now + MAX_EVENT_MS ==> f == g)
  {
    FutureSpec(specs, |specs|, now);
    FutureSpec(specs, |specs|, t);
  }

  lemma {:induction false} NextTakesOver(specs: seq<Item>, now: int)
    requires ValidPlaylist(specs)
    requires ItemAt(specs, now).end == FutureTo(specs, |specs|, now).1 < now + MAX_EVENT_MS
    ensures var b := ItemAt(specs, ItemAt(specs, now).end + 1);
            b.id != INVALID_ID && b.begin > ItemAt(specs, now).begin
  {
    var f := FutureTo(specs, |specs|, now).1;
    FutureSpec(specs, |specs|, now);
    var j :| 0 <= j < |specs| && specs[j].time.occurs(f);
    StartedAfter(specs, j, f, f + 1);
    var w := CurrentSpec(specs, |specs|, now);
  }

  lemma {:induction false} WinnerRunsOut(specs: seq<Item>, now: int)
    requires ValidPlaylist(specs) && DistinctIds(specs)
    requires ItemAt(specs, now).id != INVALID_ID && ItemAt(specs, now).end == Current(specs, now).end
    ensures var a, b := ItemAt(specs, now), ItemAt(specs, ItemAt(specs, now).end + 1);
            a.id != b.id || a.begin != b.begin
  {
    var t := ItemAt(specs, now).end + 1;
    var w := CurrentSpec(specs, |specs|, now);
    var v := CurrentSpec(specs, |specs|, t);
    assert IsPrev(specs[w].time, t);
  }

  /** The reported end is tight: one millisecond past it something else is playing. */
  lemma {:induction false} EndIsTight(specs: seq<Item>, now: int)
    requires ValidPlaylist(specs) && DistinctIds(specs)
    requires ItemAt(specs, now).id != INVALID_ID || ItemAt(specs, now).end < now + MAX_EVENT_MS
    ensures var a := ItemAt(specs, now);
            var b := ItemAt(specs, a.end + 1);
            a.id != b.id || a.begin != b.begin
    ensures ItemAt(specs, now).id == INVALID_ID ==> ItemAt(specs, ItemAt(specs, now).end + 1).id != INVALID_ID
  {
    var w := CurrentSpec(specs, |specs|, now);
    FutureSpec(specs, |specs|, now);
    var f := FutureTo(specs, |specs|, now).1;
    if f < Current(specs, now).end && f < now + MAX_EVENT_MS {
      NextTakesOver(specs, now);
    } else {
      WinnerRunsOut(specs, now);
    }
  }

  lemma {:induction false} WinnerIsUnique(specs: seq<Item>, k: nat, now: int, v: nat, w: nat)
    requires IsWinner(specs, k, now, v) && IsWinner(specs, k, now, w)
    ensures v == w
  {
    assert InProgress(specs[v], now) && InProgress(specs[w], now);
  }

  /** The reported end is never before now, and it is now exactly when the winner ends now. */
  lemma {:induction false} EndIsNowExactly(specs: seq<Item>, now: int)
    requires ValidPlaylist(specs)
    ensures ItemAt(specs, now).end >= now
    ensures ItemAt(specs, now).end == now
            <==> exists w: nat :: IsWinner(specs, |specs|, now, w) && EndOf(specs[w], BeginOf(specs[w], now)) == now
  {
    FutureSpec(specs, |specs|, now);
    var v := CurrentSpec(specs, |specs|, now);
    if w: nat :| IsWinner(specs, |specs|, now, w) && EndOf(specs[w], BeginOf(specs[w], now)) == now {
      assert InProgress(specs[w], now);
      WinnerIsUnique(specs, |specs|, now, v, w);
    }
  }

  /** An occurrence less than a second old is still in progress, so the winner is at least as recent. */
  lemma {:induction false} StartedAfter(specs: seq<Item>, j: nat, start: int, t: int)
    requires ValidPlaylist(specs) && j < |specs|
    requires specs[j].time.occurs(start) && start <= t <= start + 1000
    ensures Current(specs, t).id != INVALID_ID && start <= Current(specs, t).begin
  {
    var v := CurrentSpec(specs, |specs|, t);
    assert IsPrev(specs[j].time, t);
    assert InProgress(specs[j], t);
  }

  // ---------- the programme ----------

  function Adjusted(i: nat, ts: int, a: ScheduleItem): ScheduleItem {
    if i > 0 && a.id == INVALID_ID && ts - a.begin == MAX_EVENT_MS
    then a.(begin := ts - 100, switch := ts - 100)
    else a
  }

  /** The instant at which entry `i` of the programme is looked up. */
  function LookupTs(specs: seq<Item>, i: nat, now: int): int
    decreases i, 0
  {
    if i == 0 then now else Entry(specs, i - 1, now).end + 100
  }

  function Entry(specs: seq<Item>, i: nat, now: int): ScheduleItem
    decreases i, 1
  {
    var ts := LookupTs(specs, i, now);
    Adjusted(i, ts, ItemAt(specs, ts))
  }

  /** 100 ms after an entry ends, the next item has been switched to at or after that end. */
  lemma {:induction false} HandOver(specs: seq<Item>, ts: int)
    requires ValidPlaylist(specs)
    ensures var a := ItemAt(specs, ts);
            var b := ItemAt(specs, a.end + 100);
            && ts <= a.end
            && b.switch <= a.end + 100 <= b.end
            && if b.id == INVALID_ID then b.begin == a.end + 100 - MAX_EVENT_MS else a.end <= b.switch
  {
    var e := ItemAt(specs, ts).end;
    var t := e + 100;
    var w := CurrentSpec(specs, |specs|, ts);
    var v := CurrentSpec(specs, |specs|, t);
    FutureSpec(specs, |specs|, ts);
    FutureSpec(specs, |specs|, t);
    if Current(specs, t).id != INVALID_ID {
      if j, q :| 0 <= j < |specs| && e <= q <= t && specs[j].time.occurs(q) {
        StartedAfter(specs, j, q, t);
      } else {
        HandOverInSilence(specs, ts);
      }
    }
  }

  /** The hard case: nothing starts around the hand-over, so the old winner has run out and an
      older item resumes. */
  lemma {:induction false} HandOverInSilence(specs: seq<Item>, ts: int)
    requires ValidPlaylist(specs)
    requires forall j, q :: 0 <= j < |specs| && ItemAt(specs, ts).end <= q <= ItemAt(specs, ts).end + 100 ==>
                              !specs[j].time.occurs(q)
    requires Current(specs, ItemAt(specs, ts).end + 100).id != INVALID_ID
    ensures ItemAt(specs, ts).end <= Current(specs, ItemAt(specs, ts).end + 100).switch
  {
    var e := ItemAt(specs, ts).end;
    var t := e + 100;
    FutureSpec(specs, |specs|, ts);
    var w := CurrentSpec(specs, |specs|, ts);
    var v := CurrentSpec(specs, |specs|, t);
    forall j | 0 <= j < |specs| ensures specs[j].time.prev(t) == specs[j].time.prev(ts) {
      PrevUnchanged(specs[j].time, ts, t);
    }
    assert InProgress(specs[v], ts);
    assert e == Current(specs, ts).end;
    assert Finished(specs[w], t) && EndOf(specs[w], BeginOf(specs[w], t)) == e;
    if BeginOf(specs[v], t) == BeginOf(specs[w], t) {
      TieLeavesItsEnd(specs, w, ts, t);
    }
  }

  /** A tie on the start time: the earlier winner comes first in the walk and leaves its end behind. */
  lemma {:induction false} TieLeavesItsEnd(specs: seq<Item>, w: nat, ts: int, t: int)
    requires ValidPlaylist(specs) && IsWinner(specs, |specs|, ts, w)
    requires ts <= t && t - MAX_EVENT_MS < BeginOf(specs[w], ts)
    requires forall j :: 0 <= j < |specs| ==> specs[j].time.prev(t) == specs[j].time.prev(ts)
    requires Finished(specs[w], t)
    ensures EndOf(specs[w], BeginOf(specs[w], t)) <= Current(specs, t).switch
  {
    var u := CurrentSpec(specs, w, t);
    assert CurrentTo(specs, w, t).begin < BeginOf(specs[w], t) by {
      if CurrentTo(specs, w, t).id != INVALID_ID { assert InProgress(specs[u], ts); }
    }
    Monotone(specs, w + 1, |specs|, t);
  }

  /** The programme tiles time: each entry is switched to when its predecessor ends, give or take
      the 100 ms at which it is looked up. */
  lemma {:induction false} ScheduleTiling(specs: seq<Item>, i: nat, now: int)
    requires ValidPlaylist(specs) && i >= 1
    ensures var a, b := Entry(specs, i - 1, now), Entry(specs, i, now);
            && a.end <= b.switch <= a.end + 100
            && (b.id == INVALID_ID ==> b.begin == b.switch == a.end)
            && (b.id, b.end) == (ItemAt(specs, a.end + 100).id, ItemAt(specs, a.end + 100).end)
            && (b.id != INVALID_ID ==> b == ItemAt(specs, a.end + 100))
            && Entry(specs, 0, now) == ItemAt(specs, now)
            && b.begin <= b.switch <= b.end
            && now <= a.end < b.end
  {
    HandOver(specs, LookupTs(specs, i - 1, now));
    var w := CurrentSpec(specs, |specs|, LookupTs(specs, i, now));
    LookupAdvances(specs, i - 1, now);
  }

  lemma {:induction false} LookupAdvances(specs: seq<Item>, i: nat, now: int)
    requires ValidPlaylist(specs)
    ensures now <= LookupTs(specs, i, now) <= Entry(specs, i, now).end
  {
    if i > 0 { LookupAdvances(specs, i - 1, now); }
    HandOver(specs, LookupTs(specs, i, now));
  }

  // ---------- the object ----------

  predicate HasId(specs: seq<Item>, id: int) {
    exists k :: 0 <= k < |specs| && specs[k].id == id
  }

  function MediaOf(specs: seq<Item>, id: int): string {
    if specs == [] then "" else if specs[0].id == id then specs[0].media else MediaOf(specs[1..], id)
  }

  /** The first item of the playlist with the id. */
  function FirstWith(playlist: seq<Item>, id: int): Item
    requires HasId(playlist, id)
  {
    if playlist[0].id == id then playlist[0] else FirstWith(playlist[1..], id)
  }

  /** The items of the playlist whose id is not taken by an earlier one. */
  function Kept(playlist: seq<Item>): seq<Item> {
    if playlist == [] then []
    else
      var before, item := Kept(playlist[..|playlist| - 1]), playlist[|playlist| - 1];
      if HasId(before, item.id) then before else before + [item]
  }

  lemma {:induction false} HasIdInit(specs: seq<Item>, id: int)
    requires specs != []
    ensures HasId(specs, id) <==> HasId(specs[..|specs| - 1], id) || specs[|specs| - 1].id == id
  {
    if k :| 0 <= k < |specs| && specs[k].id == id && k < |specs| - 1 {
      assert specs[..|specs| - 1][k].id == id;
    }
  }

  lemma {:induction false} FirstWithInit(playlist: seq<Item>, id: int)
    requires playlist != [] && HasId(playlist, id)
    ensures var init := playlist[..|playlist| - 1];
            FirstWith(playlist, id) == if HasId(init, id) then FirstWith(init, id) else playlist[|playlist| - 1]
  {
    var init := playlist[..|playlist| - 1];
    HasIdInit(playlist, id);
    if init != [] && playlist[0].id != id {
      var rest := playlist[1..];
      assert rest[..|rest| - 1] == init[1..];
      HasIdTail(playlist, id);
      HasIdTail(init, id);
      FirstWithInit(rest, id);
    }
  }

  lemma {:induction false} HasIdTail(specs: seq<Item>, id: int)
    requires specs != [] && specs[0].id != id
    ensures HasId(specs, id) <==> HasId(specs[1..], id)
  {
    if k :| 0 <= k < |specs| && specs[k].id == id {
      assert specs[1..][k - 1].id == id;
    }
  }

  /** The ids are those of the playlist. */
  lemma {:induction false} KeptHasId(playlist: seq<Item>, id: int)
    ensures HasId(Kept(playlist), id) <==> HasId(playlist, id)
  {
    if playlist != [] {
      var init, item := playlist[..|playlist| - 1], playlist[|playlist| - 1];
      KeptHasId(init, id);
      HasIdInit(playlist, id);
      if !HasId(Kept(init), item.id) {
        assert Kept(playlist)[..|Kept(init)|] == Kept(init);
        HasIdInit(Kept(playlist), id);
      }
    }
  }

  /** Each item that is kept is the first with its id, and no id is kept twice. */
  lemma {:induction false} KeptIsFirst(playlist: seq<Item>, k: nat)
    requires k < |Kept(playlist)|
    ensures HasId(playlist, Kept(playlist)[k].id)
    ensures Kept(playlist)[k] == FirstWith(playlist, Kept(playlist)[k].id)
    ensures forall j :: 0 <= j < k ==> Kept(playlist)[j].id != Kept(playlist)[k].id
  {
    var init, item := playlist[..|playlist| - 1], playlist[|playlist| - 1];
    var id := Kept(playlist)[k].id;
    HasIdInit(playlist, id);
    if k < |Kept(init)| {
      KeptIsFirst(init, k);
    } else {
      KeptHasId(init, id);
    }
    FirstWithInit(playlist, id);
  }

  lemma {:induction false} FirstWithIsFirst(playlist: seq<Item>, id: int) returns (k: nat)
    requires HasId(playlist, id)
    ensures IsFirstWith(playlist, id, k) && playlist[k] == FirstWith(playlist, id)
  {
    if playlist[0].id == id {
      k := 0;
    } else {
      HasIdTail(playlist, id);
      k := FirstWithIsFirst(playlist[1..], id);
      k := k + 1;
    }
  }

  predicate IsFirstWith(specs: seq<Item>, id: int, k: nat) {
    k < |specs| && specs[k].id == id && forall j :: 0 <= j < k ==> specs[j].id != id
  }

  ghost predicate FirstOf(playlist: seq<Item>, item: Item) {
    exists k: nat :: IsFirstWith(playlist, item.id, k) && playlist[k] == item
  }

  /** The first item of each id is kept, and no other. */
  lemma {:induction false} KeptSpec(playlist: seq<Item>)
    ensures DistinctIds(Kept(playlist))
    ensures forall k :: 0 <= k < |Kept(playlist)| ==> FirstOf(playlist, Kept(playlist)[k])
    ensures forall k :: 0 <= k < |playlist| ==> HasId(Kept(playlist), playlist[k].id)
  {
    forall k | 0 <= k < |Kept(playlist)|
      ensures FirstOf(playlist, Kept(playlist)[k])
      ensures forall j :: 0 <= j < k ==> Kept(playlist)[j].id != Kept(playlist)[k].id
    {
      KeptIsFirst(playlist, k);
      var first := FirstWithIsFirst(playlist, Kept(playlist)[k].id);
    }
    forall k | 0 <= k < |playlist| ensures HasId(Kept(playlist), playlist[k].id) {
      KeptHasId(playlist, playlist[k].id);
    }
  }

  datatype Switch = Switch(media: string, now: bool)

  datatype PolicyState = PolicyState(currentId: int, currentBeginTs: int, alarm: Option<int>, switches: seq<Switch>)

  /** How GoToNext ends; CheckFailed is the process aborting on a CHECK. */
  datatype Outcome = Waiting | NothingNext | NextIn(delay: int) | CheckFailed

  /** What GoToNext does to the playing item: the field it is kept in has 32 bits. */
  function Play(specs: seq<Item>, defaultMedia: string, s: PolicyState, crt: int, isEos: bool,
                id: int): Option<PolicyState> {
    if (s.currentId != id && id != INVALID_ID) || isEos then
      if id == INVALID_ID then
        Some(s.(currentId := INVALID_ID, currentBeginTs := crt,
                switches := if defaultMedia != "" then s.switches + [Switch(defaultMedia, false)] else s.switches))
      else if HasId(specs, Int32(id)) then
        Some(s.(currentId := Int32(id), currentBeginTs := crt,
                switches := s.switches + [Switch(MediaOf(specs, Int32(id)), true)]))
      else None
    else Some(s)
  }

  function GoToNextSpec(specs: seq<Item>, defaultMedia: string, s: PolicyState, crt: int, isEos: bool): (Outcome,
                        PolicyState) {
    var first, second := Entry(specs, 0, crt + 100), Entry(specs, 1, crt + 100);
    if first.switch > crt + MIN_SCHEDULE_ERROR then
      (Waiting, s.(alarm := Some(first.switch - crt)))
    else
      match Play(specs, defaultMedia, s, crt, isEos, first.id)
      case None => (CheckFailed, s)
      case Some(played) =>
        if specs == [] then (NothingNext, played.(alarm := None))
        else if second.switch - crt > 0 then
          (NextIn(second.switch - crt), played.(alarm := Some(second.switch - crt)))
        else (CheckFailed, played)
  }

  /** The early return is unreachable, the delay is at least 100 ms, and the only CHECK that can
      fire is the look-up of the item just chosen: it does exactly when the item has to be
      switched to and its id, cut to 32 bits, names no item. */
  lemma {:induction false} GoToNextNeverWaits(specs: seq<Item>, defaultMedia: string, s: PolicyState, crt: int,
                                              isEos: bool)
    requires ValidPlaylist(specs)
    ensures var (r, s') := GoToNextSpec(specs, defaultMedia, s, crt, isEos);
            var id := Entry(specs, 0, crt + 100).id;
            && !r.Waiting?
            && (r.NextIn? ==> r.delay == Entry(specs, 1, crt + 100).switch - crt >= 100 && s'.alarm == Some(r.delay))
            && (r.CheckFailed? <==> id != INVALID_ID && (s.currentId != id || isEos) && !HasId(specs, Int32(id)))
            && (r.NothingNext? <==> specs == []) && (specs == [] ==> s'.alarm == None)
  {
    ScheduleTiling(specs, 1, crt + 100);
    var w := CurrentSpec(specs, |specs|, crt + 100);
  }

  lemma {:induction false} MediaOfFirst(specs: seq<Item>, k: nat)
    requires k < |specs| && IsFirstWith(specs, specs[k].id, k)
    ensures MediaOf(specs, specs[k].id) == specs[k].media
  {
    if k > 0 {
      assert specs[1..][k - 1] == specs[k];
      MediaOfFirst(specs[1..], k - 1);
    }
  }

  lemma {:induction false} FirstOfId(specs: seq<Item>, w: nat) returns (k: nat)
    requires w < |specs|
    ensures IsFirstWith(specs, specs[w].id, k) && (DistinctIds(specs) ==> k == w)
  {
    k := 0;
    while specs[k].id != specs[w].id
      invariant k <= w && forall j :: 0 <= j < k ==> specs[j].id != specs[w].id
      decreases w - k
    {
      k := k + 1;
    }
  }

  lemma {:induction false} KeepsChosenExactly(specs: seq<Item>, media: string, s: PolicyState, crt: int, isEos: bool)
    requires ValidPlaylist(specs)
    requires Entry(specs, 0, crt + 100).id != INVALID_ID
    requires s.currentId != Entry(specs, 0, crt + 100).id || isEos
    ensures var (r, s') := GoToNextSpec(specs, media, s, crt, isEos);
            var id := Entry(specs, 0, crt + 100).id;
            (!r.CheckFailed? && s'.currentId == id && s'.currentBeginTs == crt
             && s'.switches == s.switches + [Switch(MediaOf(specs, id), true)])
            <==> IsInt32(id)
  {
    GoToNextNeverWaits(specs, media, s, crt, isEos);
    var w := CurrentSpec(specs, |specs|, crt + 100);
    assert specs[w].id == Entry(specs, 0, crt + 100).id;
  }

  /** When something has to be played, the winner's media is switched to, at once, exactly when its id fits the
      32 bits of the field. `k` is the winner `w` itself, as an id is there once. */
  lemma {:induction false} PlaysChosenExactly(specs: seq<Item>, media: string, s: PolicyState, crt: int, isEos: bool)
    returns (w: nat, k: nat)
    requires ValidPlaylist(specs)
    requires Entry(specs, 0, crt + 100).id != INVALID_ID
    requires s.currentId != Entry(specs, 0, crt + 100).id || isEos
    ensures IsWinner(specs, |specs|, crt + 100, w) && specs[w].id == Entry(specs, 0, crt + 100).id
    ensures IsFirstWith(specs, specs[w].id, k) && (DistinctIds(specs) ==> k == w)
    ensures var (r, s') := GoToNextSpec(specs, media, s, crt, isEos);
            (!r.CheckFailed? && s'.currentId == specs[w].id && s'.currentBeginTs == crt
             && s'.switches == s.switches + [Switch(specs[k].media, true)])
            <==> IsInt32(specs[w].id)
  {
    KeepsChosenExactly(specs, media, s, crt, isEos);
    w := SomeGives(specs, |specs|, crt + 100);
    k := FirstOfId(specs, w);
    MediaOfFirst(specs, k);
  }

  /** What is playing is left alone exactly when it is what was chosen, or nothing was; but at the end of a stream
      the chosen item is started anew, and without one the default media comes next, if there is any. */
  lemma {:induction false} LeavesAloneExactly(specs: seq<Item>, media: string, s: PolicyState, crt: int, isEos: bool)
    requires ValidPlaylist(specs) && !GoToNextSpec(specs, media, s, crt, isEos).0.CheckFailed?
    ensures var s', id := GoToNextSpec(specs, media, s, crt, isEos).1, Entry(specs, 0, crt + 100).id;
            && (s'.switches == s.switches
                <==> if isEos then id == INVALID_ID && media == "" else id == INVALID_ID || id == s.currentId)
            && (!isEos && s'.switches == s.switches ==>
                  (s'.currentId, s'.currentBeginTs) == (s.currentId, s.currentBeginTs))
            && (isEos && id == INVALID_ID ==> s'.currentId == INVALID_ID && s'.currentBeginTs == crt)
            && (isEos && id == INVALID_ID && media != "" ==> s'.switches == s.switches + [Switch(media, false)])
  {
    GoToNextNeverWaits(specs, media, s, crt, isEos);
  }

  /** With ids that fit the field, the CHECK on the look-up never fires. */
  lemma {:induction false} GoToNextNeverAborts(specs: seq<Item>, defaultMedia: string, s: PolicyState, crt: int,
                                               isEos: bool)
    requires ValidPlaylist(specs) && FitsField(specs)
    ensures var (r, s') := GoToNextSpec(specs, defaultMedia, s, crt, isEos);
            && !r.CheckFailed?
            && (specs != [] ==> r.NextIn?)
            && (isEos ==> s'.currentId == Entry(specs, 0, crt + 100).id)
  {
    GoToNextNeverWaits(specs, defaultMedia, s, crt, isEos);
    ChosenFits(specs, crt + 100);
  }

  // ---------- the timer ----------

  function Iterate(next: int -> int, start: int, n: nat): int {
    if n == 0 then start else next(Iterate(next, start, n - 1))
  }

  /** When the alarm goes off that a call at `crt` sets. */
  function NextCall(specs: seq<Item>): int -> int {
    (crt: int) => Entry(specs, 1, crt + 100).switch
  }

  /** When the `n`-th call is made, each but the first by the alarm that the one before sets. */
  function CallTime(specs: seq<Item>, crt: int, n: nat): int {
    Iterate(NextCall(specs), crt, n)
  }

  function AfterCalls(specs: seq<Item>, media: string, s: PolicyState, crt: int, n: nat): PolicyState {
    if n == 0 then s
    else
      GoToNextSpec(specs, media, AfterCalls(specs, media, s, crt, n - 1), CallTime(specs, crt, n - 1), false).1
  }

  ghost predicate FitsField(specs: seq<Item>) {
    forall k :: 0 <= k < |specs| ==> IsInt32(specs[k].id)
  }

  /** The next call is due at least 100 ms later, and at most 100 ms after the end of what this one has chosen. */
  lemma {:induction false} CallTiming(specs: seq<Item>, crt: int)
    requires ValidPlaylist(specs)
    ensures var chosen, next := Entry(specs, 0, crt + 100), Entry(specs, 1, crt + 100).switch;
            crt + 100 <= chosen.end <= next <= chosen.end + 100
  {
    ScheduleTiling(specs, 1, crt + 100);
  }

  /** A call sets the alarm for the next one. */
  lemma {:induction false} CallSetsAlarm(specs: seq<Item>, media: string, s: PolicyState, crt: int)
    requires ValidPlaylist(specs) && specs != [] && FitsField(specs)
    ensures var (r, s') := GoToNextSpec(specs, media, s, crt, false);
            var next := Entry(specs, 1, crt + 100).switch;
            r == NextIn(next - crt) && s'.alarm == Some(next - crt)
  {
    GoToNextNeverWaits(specs, media, s, crt, false);
    GoToNextNeverAborts(specs, media, s, crt, false);
  }

  lemma {:induction false} ChosenFits(specs: seq<Item>, ts: int)
    requires ValidPlaylist(specs) && FitsField(specs)
    ensures var id := Entry(specs, 0, ts).id; id != INVALID_ID ==> Int32(id) == id && HasId(specs, id)
  {
    var w := CurrentSpec(specs, |specs|, ts);
  }

  /** ... and keeps what it has chosen as playing, if anything. */
  lemma {:induction false} CallKeepsChosen(specs: seq<Item>, media: string, s: PolicyState, crt: int)
    requires ValidPlaylist(specs) && specs != [] && FitsField(specs)
    ensures var id := Entry(specs, 0, crt + 100).id;
            GoToNextSpec(specs, media, s, crt, false).1.currentId == if id == INVALID_ID then s.currentId else id
  {
    CallSetsAlarm(specs, media, s, crt);
    ChosenFits(specs, crt + 100);
  }

  lemma {:induction false} UntilNextCall(specs: seq<Item>, c: int, t: int)
    requires ValidPlaylist(specs) && c + 100 <= t < Entry(specs, 1, c + 100).switch
    ensures var chosen := Entry(specs, 0, c + 100);
            ItemAt(specs, t).id == chosen.id || chosen.end <= t < chosen.end + 100
  {
    CallTiming(specs, c);
    if t < ItemAt(specs, c + 100).end {
      WinnerStability(specs, c + 100, t);
    }
  }

  lemma {:induction false} NextCallIs(specs: seq<Item>, crt: int, n: nat)
    ensures CallTime(specs, crt, n + 1) == Entry(specs, 1, CallTime(specs, crt, n) + 100).switch
  {
    assert CallTime(specs, crt, n + 1) == NextCall(specs)(CallTime(specs, crt, n));
  }

  lemma {:induction false} ChosenIsKept(specs: seq<Item>, media: string, s: PolicyState, crt: int, n: nat)
    requires ValidPlaylist(specs) && specs != [] && FitsField(specs)
    ensures var id := Entry(specs, 0, CallTime(specs, crt, n) + 100).id;
            id != INVALID_ID ==> AfterCalls(specs, media, s, crt, n + 1).currentId == id
  {
    CallKeepsChosen(specs, media, AfterCalls(specs, media, s, crt, n), CallTime(specs, crt, n));
  }

  /** From 100 ms after a call until the next one, the item it has chosen is the one that is to play, but for
      the last 100 ms at most. */
  lemma {:induction false} TimerFollowsProgramme(specs: seq<Item>, crt: int, n: nat, t: int)
    requires ValidPlaylist(specs)
    requires CallTime(specs, crt, n) + 100 <= t < CallTime(specs, crt, n + 1)
    ensures var chosen := Entry(specs, 0, CallTime(specs, crt, n) + 100);
            ItemAt(specs, t).id == chosen.id || chosen.end <= t < chosen.end + 100
  {
    NextCallIs(specs, crt, n);
    UntilNextCall(specs, CallTime(specs, crt, n), t);
  }

  lemma {:induction false} IteratesAdvance(next: int -> int, start: int, n: nat)
    requires forall c :: next(c) >= c + 100
    ensures Iterate(next, start, n) >= start + 100 * n
  {
    if n > 0 { IteratesAdvance(next, start, n - 1); }
  }

  /** An instant between the first and the `n`-th of some times lies between two that follow each other. */
  lemma {:induction false} Between(next: int -> int, start: int, t: int, n: nat) returns (k: nat)
    requires start <= t < Iterate(next, start, n)
    ensures Iterate(next, start, k) <= t < Iterate(next, start, k + 1)
  {
    if Iterate(next, start, n - 1) <= t {
      k := n - 1;
    } else {
      k := Between(next, start, t, n - 1);
    }
  }

  lemma {:induction false} SomeIterateBefore(next: int -> int, start: int, t: int) returns (k: nat)
    requires start <= t && forall c :: next(c) >= c + 100
    ensures Iterate(next, start, k) <= t < Iterate(next, start, k + 1)
  {
    IteratesAdvance(next, start, t - start + 1);
    k := Between(next, start, t, t - start + 1);
  }

  /** What is playing at `t` after the `n`-th call is what is to play, or nothing was to, or it is within 100 ms
      after the call or after the end of what the call has chosen. */
  predicate OnProgramme(specs: seq<Item>, media: string, s: PolicyState, crt: int, n: nat, t: int) {
    var c := CallTime(specs, crt, n);
    var chosen := Entry(specs, 0, c + 100);
    || t < c + 100
    || chosen.id == INVALID_ID
    || (&& AfterCalls(specs, media, s, crt, n + 1).currentId == chosen.id
        && (ItemAt(specs, t).id == chosen.id || chosen.end <= t < chosen.end + 100))
  }

  lemma {:induction false} StaysOnProgramme(specs: seq<Item>, media: string, s: PolicyState, crt: int, n: nat, t: int)
    requires ValidPlaylist(specs) && specs != [] && FitsField(specs)
    requires CallTime(specs, crt, n) <= t < CallTime(specs, crt, n + 1)
    ensures OnProgramme(specs, media, s, crt, n, t)
  {
    if CallTime(specs, crt, n) + 100 <= t {
      TimerFollowsProgramme(specs, crt, n, t);
      ChosenIsKept(specs, media, s, crt, n);
    }
  }

  lemma {:induction false} CallBefore(specs: seq<Item>, crt: int, t: int) returns (n: nat)
    requires ValidPlaylist(specs) && crt <= t
    ensures CallTime(specs, crt, n) <= t < CallTime(specs, crt, n + 1)
  {
    forall c ensures NextCall(specs)(c) >= c + 100 {
      CallTiming(specs, c);
    }
    n := SomeIterateBefore(NextCall(specs), crt, t);
  }

  /** At any instant from the first call on. */
  lemma {:induction false} AlwaysOnProgramme(specs: seq<Item>, media: string, s: PolicyState, crt: int, t: int)
    returns (n: nat)
    requires ValidPlaylist(specs) && specs != [] && FitsField(specs) && crt <= t
    ensures CallTime(specs, crt, n) <= t < CallTime(specs, crt, n + 1)
    ensures OnProgramme(specs, media, s, crt, n, t)
  {
    n := CallBefore(specs, crt, t);
    StaysOnProgramme(specs, media, s, crt, n, t);
  }

  class SchedulePlaylistPolicy {
    var specs: seq<Item>
    var defaultMedia: string
    var currentId: int
    var currentBeginTs: int
    var alarm: Option<int>
    var switches: seq<Switch>

    function State(): PolicyState
      reads this
    {
      PolicyState(currentId, currentBeginTs, alarm, switches)
    }

    /** A playlist entry whose id is already taken is ignored. */
    constructor (defaultMedia: string, playlist: seq<Item>)
      ensures specs == Kept(playlist) && DistinctIds(specs)
      ensures forall k :: 0 <= k < |specs| ==> FirstOf(playlist, specs[k])
      ensures forall k :: 0 <= k < |playlist| ==> HasId(specs, playlist[k].id)
      ensures this.defaultMedia == defaultMedia
      ensures State() == PolicyState(INVALID_ID, 0, None, [])
    {
      var kept: seq<Item> := [];
      for i := 0 to |playlist|
        invariant kept == Kept(playlist[..i])
      {
        assert playlist[..i + 1][..i] == playlist[..i];
        if !HasId(kept, playlist[i].id) {
          kept := kept + [playlist[i]];
        }
      }
      assert playlist[..|playlist|] == playlist;
      specs, this.defaultMedia := kept, defaultMedia;
      currentId, currentBeginTs, alarm, switches := INVALID_ID, 0, None, [];
      KeptSpec(playlist);
    }

    method GetCurrentItemAtTime(now: int) returns (id: int, begin: int, switch: int, end: int)
      ensures ScheduleItem(id, begin, switch, end) == Current(specs, now)
    {
      id, begin := INVALID_ID, now - MAX_EVENT_MS;
      switch, end := begin, now + MAX_EVENT_MS;
      for i := 0 to |specs|
        invariant ScheduleItem(id, begin, switch, end) == CurrentTo(specs, i, now)
      {
        var happening := specs[i].time.prev(now);
        if happening.Some? {
          var pastBegin := happening.value;
          var pastEnd := pastBegin + DurationMs(specs[i].time);
          if pastEnd >= now && pastBegin > begin {
            id, begin := specs[i].id, pastBegin;
            if switch < begin {
              switch := begin;
            }
            end := pastEnd;
          }
          if pastEnd <= now && pastBegin > begin && pastEnd > switch {
            switch := pastEnd;
          }
        }
      }
    }

    method GetFutureItemAtTime(now: int) returns (id: int, begin: int)
      ensures (id, begin) == FutureTo(specs, |specs|, now)
    {
      id, begin := INVALID_ID, now + MAX_EVENT_MS;
      for i := 0 to |specs|
        invariant (id, begin) == FutureTo(specs, i, now)
      {
        var happening := specs[i].time.next(now);
        if happening.Some? && happening.value < begin {
          id, begin := specs[i].id, happening.value;
        }
      }
    }

    method GetItemAtTime(now: int) returns (item: ScheduleItem)
      ensures item == ItemAt(specs, now)
    {
      var id, begin, switch, end := GetCurrentItemAtTime(now);
      var futureId, futureBegin := GetFutureItemAtTime(now);
      if futureBegin < end {
        end := futureBegin;
      }
      item := ScheduleItem(id, begin, switch, end);
    }

    method GetScheduleAtTime(num: int, now: int) returns (schedule: seq<ScheduleItem>)
      ensures |schedule| == if num < 0 then 0 else num
      ensures forall i :: 0 <= i < |schedule| ==> schedule[i] == Entry(specs, i, now)
    {
      schedule := [];
      var ts, i := now, 0;
      while i < num
        invariant 0 <= i == |schedule| && (i <= num || num < 0)
        invariant num < 0 ==> i == 0
        invariant ts == LookupTs(specs, i, now)
        invariant forall k :: 0 <= k < i ==> schedule[k] == Entry(specs, k, now)
      {
        var item := GetItemAtTime(ts);
        if i > 0 && item.id == -1 && ts - item.begin == MAX_EVENT_MS {
          item := item.(begin := ts - 100, switch := ts - 100);
        }
        schedule := schedule + [item];
        ts := item.end + 100;
        i := i + 1;
      }
    }

    method GoToNext(crt: int, isEos: bool) returns (r: Outcome)
      modifies this`currentId, this`currentBeginTs, this`alarm, this`switches
      ensures (r, State()) == GoToNextSpec(specs, defaultMedia, old(State()), crt, isEos)
    {
      var schedule := GetScheduleAtTime(2, crt + 100);
      if schedule[0].switch > crt + MIN_SCHEDULE_ERROR {
        alarm := Some(schedule[0].switch - crt);
        return Waiting;
      }
      var id := schedule[0].id;
      if (currentId != id && id != INVALID_ID) || isEos {
        if id == INVALID_ID {
          currentBeginTs, currentId := crt, INVALID_ID;
          if defaultMedia != "" {
            switches := switches + [Switch(defaultMedia, false)];
          }
        } else {
          if !HasId(specs, Int32(id)) {
            return CheckFailed;
          }
          currentBeginTs, currentId := crt, Int32(id);
          switches := switches + [Switch(MediaOf(specs, currentId), true)];
        }
      }
      if specs == [] {
        alarm := None;
        return NothingNext;
      }
      var delay := schedule[1].switch - crt;
      if delay <= 0 {
        return CheckFailed;
      }
      alarm := Some(delay);
      r := NextIn(delay);
    }
  }
}
