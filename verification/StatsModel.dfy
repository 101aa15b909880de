/**
 The folding of statistics events into pending begins and finished rows, on values: what one
 event does, what a log prefix does, and what a checkpoint has to remember.
 */
module StatsModel {
  import opened Options

  /** A connection, stream or media begin; only media begins have a content id that is looked at. */
  datatype Begin = Begin(id: string, timestampMs: int, contentId: string, details: string)
  datatype End = End(id: string, timestampMs: int, result: string)

  /** One log record's event; the source keys on which of the six parts is set, in its own order. */
  datatype Event = Event(
    serverId: string, instance: int,
    connBegin: Option<Begin>, streamBegin: Option<Begin>, mediaBegin: Option<Begin>,
    connEnd: Option<End>, streamEnd: Option<End>, mediaEnd: Option<End>)

  datatype Row = Row(serverId: string, instance: int, begin: Begin, end: End)

  datatype Server = Server(
    instance: int, conns: map<string, Begin>, streams: map<string, Begin>, medias: map<string, Begin>)

  type Servers = map<string, Server>

  datatype Status = Success | SqlError | InternalError

  datatype Record = Garbled | Stat(event: Event)

  predicate Dated(ev: Event) {
    || ev.connBegin.Some? || ev.connEnd.Some? || ev.streamBegin.Some?
    || ev.streamEnd.Some? || ev.mediaBegin.Some? || ev.mediaEnd.Some?
  }

  /** The time an event is dated with; only an event with no part set falls back on the clock. */
  function EventTs(ev: Event, now: int): int {
    if ev.connBegin.Some? then ev.connBegin.value.timestampMs
    else if ev.connEnd.Some? then ev.connEnd.value.timestampMs
    else if ev.streamBegin.Some? then ev.streamBegin.value.timestampMs
    else if ev.streamEnd.Some? then ev.streamEnd.value.timestampMs
    else if ev.mediaBegin.Some? then ev.mediaBegin.value.timestampMs
    else if ev.mediaEnd.Some? then ev.mediaEnd.value.timestampMs
    else now
  }

  function NewServer(instance: int): Server {
    Server(instance, map[], map[], map[])
  }

  predicate Empty(s: Server) {
    s.conns == map[] && s.streams == map[] && s.medias == map[]
  }

  predicate KeyedMap(m: map<string, Begin>) {
    forall k :: k in m ==> m[k].id == k
  }

  predicate Keyed(s: Server) {
    KeyedMap(s.conns) && KeyedMap(s.streams) && KeyedMap(s.medias)
  }

  predicate KeyedServers(st: Servers) {
    forall id :: id in st ==> Keyed(st[id])
  }

  function CrashRow(serverId: string, instance: int, begin: Begin, ts: int): Row {
    Row(serverId, instance, begin, End(begin.id, ts, "SERVER CRASH"))
  }

  /** The rows written when a server comes back as another instance. */
  function CrashRows(serverId: string, s: Server, keys: set<string>, ts: int, matches: string -> bool): multiset<Row>
    requires keys <= s.medias.Keys
  {
    multiset(set k | k in keys && matches(s.medias[k].contentId) :: CrashRow(serverId, s.instance, s.medias[k], ts))
  }

  function AddToServer(serverId: string, s: Server, ev: Event, now: int, matches: string -> bool)
    : (Status, Server, multiset<Row>)
  {
    var crashed := ev.instance != s.instance;
    var cur := if crashed then NewServer(ev.instance) else s;
    var rows := if crashed then CrashRows(serverId, s, s.medias.Keys, EventTs(ev, now), matches) else multiset{};
    if ev.connBegin.Some? then
      (Success, cur.(conns := cur.conns[ev.connBegin.value.id := ev.connBegin.value]), rows)
    else if ev.streamBegin.Some? then
      (Success, cur.(streams := cur.streams[ev.streamBegin.value.id := ev.streamBegin.value]), rows)
    else if ev.mediaBegin.Some? then
      (Success, cur.(medias := cur.medias[ev.mediaBegin.value.id := ev.mediaBegin.value]), rows)
    else if ev.connEnd.Some? then
      var id := ev.connEnd.value.id;
      if id !in cur.conns then (InternalError, cur, rows) else (Success, cur.(conns := cur.conns - {id}), rows)
    else if ev.streamEnd.Some? then
      var id := ev.streamEnd.value.id;
      if id !in cur.streams then (InternalError, cur, rows) else (Success, cur.(streams := cur.streams - {id}), rows)
    else if ev.mediaEnd.Some? then
      var id := ev.mediaEnd.value.id;
      if id !in cur.medias then (InternalError, cur, rows)
      else (Success, cur.(medias := cur.medias - {id}),
            rows + MediaRows(serverId, cur.instance, cur.medias[id], ev.mediaEnd.value, matches))
    else (InternalError, cur, rows)
  }

  function MediaRows(serverId: string, instance: int, begin: Begin, end: End, matches: string -> bool): multiset<Row> {
    if matches(begin.contentId) then multiset{Row(serverId, instance, begin, end)} else multiset{}
  }

  function ServerFor(st: Servers, ev: Event): Server {
    if ev.serverId in st then st[ev.serverId] else NewServer(ev.instance)
  }

  function AddStat(st: Servers, ev: Event, now: int, matches: string -> bool): (Status, Servers, multiset<Row>) {
    var (r, s, rows) := AddToServer(ev.serverId, ServerFor(st, ev), ev, now, matches);
    (r, if r.Success? && Empty(s) then st - {ev.serverId} else st[ev.serverId := s], rows)
  }

  /** The source erases through the iterator of its own look-up, which is past the end for a
      server it has just created: that never happens. */
  lemma {:induction false} NewServerIsNeverErased(st: Servers, ev: Event, now: int, matches: string -> bool)
    requires ev.serverId !in st
    ensures var (r, s, rows) := AddToServer(ev.serverId, ServerFor(st, ev), ev, now, matches);
            (r.Success? ==> !Empty(s)) && rows == multiset{}
  {
    var cur := NewServer(ev.instance);
    if ev.connBegin.Some? {
      assert ev.connBegin.value.id in cur.conns[ev.connBegin.value.id := ev.connBegin.value];
    } else if ev.streamBegin.Some? {
      assert ev.streamBegin.value.id in cur.streams[ev.streamBegin.value.id := ev.streamBegin.value];
    } else if ev.mediaBegin.Some? {
      assert ev.mediaBegin.value.id in cur.medias[ev.mediaBegin.value.id := ev.mediaBegin.value];
    }
  }

  lemma {:induction false} KeyedConnsStay(serverId: string, s: Server, ev: Event, now: int, matches: string -> bool)
    requires KeyedMap(s.conns)
    ensures KeyedMap(AddToServer(serverId, s, ev, now, matches).1.conns)
  {
  }

  lemma {:induction false} KeyedStreamsStay(serverId: string, s: Server, ev: Event, now: int, matches: string -> bool)
    requires KeyedMap(s.streams)
    ensures KeyedMap(AddToServer(serverId, s, ev, now, matches).1.streams)
  {
  }

  lemma {:induction false} KeyedMediasStay(serverId: string, s: Server, ev: Event, now: int, matches: string -> bool)
    requires KeyedMap(s.medias)
    ensures KeyedMap(AddToServer(serverId, s, ev, now, matches).1.medias)
  {
  }

  lemma {:induction false} KeyedServerStays(serverId: string, s: Server, ev: Event, now: int, matches: string -> bool)
    requires Keyed(s)
    ensures Keyed(AddToServer(serverId, s, ev, now, matches).1)
  {
    KeyedConnsStay(serverId, s, ev, now, matches);
    KeyedStreamsStay(serverId, s, ev, now, matches);
    KeyedMediasStay(serverId, s, ev, now, matches);
  }

  /** Begins stay filed under their own id. */
  lemma {:induction false} KeyedStays(st: Servers, ev: Event, now: int, matches: string -> bool)
    requires KeyedServers(st)
    ensures KeyedServers(AddStat(st, ev, now, matches).1)
  {
    KeyedServerStays(ev.serverId, ServerFor(st, ev), ev, now, matches);
  }

  // ---------- replaying an event ----------

  /** Dated, or changes no known instance, or closes no media statistic that is recorded. */
  ghost predicate Replayable(st: Servers, ev: Event, matches: string -> bool) {
    || Dated(ev)
    || ev.serverId !in st
    || ev.instance == st[ev.serverId].instance
    || (forall k :: k in st[ev.serverId].medias ==> !matches(st[ev.serverId].medias[k].contentId))
  }

  lemma {:induction false} CrashWritesDated(st: Servers, ev: Event, k: string, matches: string -> bool)
    requires !Dated(ev) && ev.serverId in st && ev.instance != st[ev.serverId].instance
    requires k in st[ev.serverId].medias && matches(st[ev.serverId].medias[k].contentId)
    ensures AddStat(st, ev, 0, matches).2 != AddStat(st, ev, 1, matches).2
  {
    var s := st[ev.serverId];
    var row := CrashRow(ev.serverId, s.instance, s.medias[k], 0);
    assert row in CrashRows(ev.serverId, s, s.medias.Keys, 0, matches);
    assert row !in CrashRows(ev.serverId, s, s.medias.Keys, 1, matches);
  }

  lemma {:induction false} ReplayableIsTimeless(st: Servers, ev: Event, t: int, u: int, matches: string -> bool)
    requires Replayable(st, ev, matches)
    ensures AddStat(st, ev, t, matches) == AddStat(st, ev, u, matches)
  {
    if !Dated(ev) && ev.serverId in st && ev.instance != st[ev.serverId].instance {
      var s := st[ev.serverId];
      assert CrashRows(ev.serverId, s, s.medias.Keys, t, matches) == multiset{};
      assert CrashRows(ev.serverId, s, s.medias.Keys, u, matches) == multiset{};
    }
  }

  /** What an event writes does not depend on when it is replayed exactly when it is replayable. */
  lemma {:induction false} ReplayableExactly(st: Servers, ev: Event, matches: string -> bool)
    ensures (forall t, u :: AddStat(st, ev, t, matches) == AddStat(st, ev, u, matches)) <==> Replayable(st, ev, matches)
    ensures !Replayable(st, ev, matches) ==> AddStat(st, ev, 0, matches).2 != AddStat(st, ev, 1, matches).2
  {
    if Replayable(st, ev, matches) {
      forall t, u ensures AddStat(st, ev, t, matches) == AddStat(st, ev, u, matches) {
        ReplayableIsTimeless(st, ev, t, u, matches);
      }
    } else {
      var k :| k in st[ev.serverId].medias && matches(st[ev.serverId].medias[k].contentId);
      CrashWritesDated(st, ev, k, matches);
    }
  }

  /** What is pending after an event never depends on the clock. */
  lemma {:induction false} PendingIgnoresClock(st: Servers, ev: Event, t: int, u: int, matches: string -> bool)
    ensures AddStat(st, ev, t, matches).0 == AddStat(st, ev, u, matches).0
    ensures AddStat(st, ev, t, matches).1 == AddStat(st, ev, u, matches).1
  {
  }

  // ---------- a log prefix ----------

  function ExecRecord(done: (Servers, multiset<Row>), record: Record, now: int, matches: string -> bool)
    : (Servers, multiset<Row>)
  {
    match record
    case Garbled => done
    case Stat(ev) => var (_, st, rows) := AddStat(done.0, ev, now, matches); (st, done.1 + rows)
  }

  /** One uninterrupted run over the first `|times|` records, which reads the clock at these times: the
      pending begins and the rows written. */
  function Exec(log: seq<Record>, times: seq<int>, matches: string -> bool): (Servers, multiset<Row>)
    requires |times| <= |log|
  {
    if times == [] then (map[], multiset{})
    else
      var k := |times| - 1;
      ExecRecord(Exec(log, times[..k], matches), log[k], times[k], matches)
  }

  lemma {:induction false} ExecOne(log: seq<Record>, times: seq<int>, now: int, matches: string -> bool)
    requires |times| < |log|
    ensures Exec(log, times + [now], matches) == ExecRecord(Exec(log, times, matches), log[|times|], now, matches)
  {
    assert (times + [now])[..|times|] == times;
  }

  lemma {:induction false} ExecRecordGrows(done: (Servers, multiset<Row>), record: Record, now: int,
                                           matches: string -> bool)
    ensures done.1 <= ExecRecord(done, record, now, matches).1
    ensures KeyedServers(done.0) ==> KeyedServers(ExecRecord(done, record, now, matches).0)
  {
    if record.Stat? && KeyedServers(done.0) { KeyedStays(done.0, record.event, now, matches); }
  }

  lemma {:induction false} ExecKeyed(log: seq<Record>, times: seq<int>, matches: string -> bool)
    requires |times| <= |log|
    ensures KeyedServers(Exec(log, times, matches).0)
  {
    if times != [] {
      var k := |times| - 1;
      ExecKeyed(log, times[..k], matches);
      ExecRecordGrows(Exec(log, times[..k], matches), log[k], times[k], matches);
    }
  }

  lemma {:induction false} RowsGrow(log: seq<Record>, j: nat, times: seq<int>, matches: string -> bool)
    requires j <= |times| <= |log|
    ensures Exec(log, times[..j], matches).1 <= Exec(log, times, matches).1
  {
    if j == |times| {
      assert times[..j] == times;
    } else {
      var k := |times| - 1;
      assert times[..k][..j] == times[..j];
      RowsGrow(log, j, times[..k], matches);
      ExecRecordGrows(Exec(log, times[..k], matches), log[k], times[k], matches);
    }
  }

  /** Some records of the log, from `from` on, processed at `times[from..]`. */
  datatype Batch = Batch(from: nat, times: seq<int>)

  predicate IsBatch(log: seq<Record>, b: Batch) {
    b.from <= |b.times| <= |log|
  }

  /** The rows of the records of a batch. */
  function BatchRows(log: seq<Record>, b: Batch, matches: string -> bool): multiset<Row>
    requires IsBatch(log, b)
  {
    Exec(log, b.times, matches).1 - Exec(log, b.times[..b.from], matches).1
  }

  // ---------- the clock ----------

  /** The clock always reads 0. */
  function Zeros(k: nat): (times: seq<int>)
    ensures |times| == k
  {
    if k == 0 then [] else Zeros(k - 1) + [0]
  }

  /** Record `i` is replayable where the run meets it. */
  ghost predicate ReplayableAt(log: seq<Record>, i: nat, matches: string -> bool)
    requires i < |log|
  {
    log[i].Stat? ==> Replayable(Exec(log, Zeros(i), matches).0, log[i].event, matches)
  }

  lemma {:induction false} ExecPendingIgnoresClock(log: seq<Record>, t: seq<int>, u: seq<int>, matches: string -> bool)
    requires |t| == |u| <= |log|
    ensures Exec(log, t, matches).0 == Exec(log, u, matches).0
  {
    if t != [] {
      var k := |t| - 1;
      ExecPendingIgnoresClock(log, t[..k], u[..k], matches);
      if log[k].Stat? {
        PendingIgnoresClock(Exec(log, t[..k], matches).0, log[k].event, t[k], u[k], matches);
      }
    }
  }

  /** As long as every record is replayable where it is met, the clock makes no difference. */
  lemma {:induction false} ClockIsFree(log: seq<Record>, times: seq<int>, matches: string -> bool)
    requires |times| <= |log| && forall i :: 0 <= i < |times| ==> ReplayableAt(log, i, matches)
    ensures Exec(log, times, matches) == Exec(log, Zeros(|times|), matches)
  {
    if times != [] {
      var k := |times| - 1;
      ClockIsFree(log, times[..k], matches);
      assert Zeros(|times|)[..k] == Zeros(k);
      assert ReplayableAt(log, k, matches);
      if log[k].Stat? {
        ReplayableExactly(Exec(log, Zeros(k), matches).0, log[k].event, matches);
      }
    }
  }

  lemma {:induction false} ClockMattersHere(log: seq<Record>, times: seq<int>, matches: string -> bool)
    requires |times| < |log| && log[|times|].Stat?
    requires !Replayable(Exec(log, times, matches).0, log[|times|].event, matches)
    ensures Exec(log, times + [0], matches).1 != Exec(log, times + [1], matches).1
  {
    var done, ev := Exec(log, times, matches), log[|times|].event;
    ExecOne(log, times, 0, matches);
    ExecOne(log, times, 1, matches);
    ReplayableExactly(done.0, ev, matches);
    OneMoreRows(done.1, AddStat(done.0, ev, 0, matches).2, AddStat(done.0, ev, 1, matches).2);
  }

  lemma {:induction false} DifferenceStays(log: seq<Record>, t: seq<int>, u: seq<int>, now: int,
                                           matches: string -> bool)
    requires |t| == |u| < |log| && Exec(log, t, matches).1 != Exec(log, u, matches).1
    ensures Exec(log, t + [now], matches).1 != Exec(log, u + [now], matches).1
  {
    ExecOne(log, t, now, matches);
    ExecOne(log, u, now, matches);
    ExecPendingIgnoresClock(log, t, u, matches);
    if log[|t|].Stat? {
      var rows := AddStat(Exec(log, t, matches).0, log[|t|].event, now, matches).2;
      OneMoreRows(rows, Exec(log, t, matches).1, Exec(log, u, matches).1);
    }
  }

  ghost predicate RowsDiffer(log: seq<Record>, t: seq<int>, u: seq<int>, matches: string -> bool) {
    |t| == |u| <= |log| && Exec(log, t, matches).1 != Exec(log, u, matches).1
  }

  /** A clock that makes the first rows differ makes all of them differ. */
  lemma {:induction false} ClockMatters(log: seq<Record>, t: seq<int>, k: nat, matches: string -> bool)
    returns (times: seq<int>)
    requires |t| <= k <= |log| && RowsDiffer(log, t, Zeros(|t|), matches)
    ensures |times| == k && RowsDiffer(log, times, Zeros(k), matches)
  {
    if |t| == k {
      times := t;
    } else {
      var shorter := ClockMatters(log, t, k - 1, matches);
      DifferenceStays(log, shorter, Zeros(k - 1), 0, matches);
      times := shorter + [0];
    }
  }

  lemma {:induction false} OneMoreRows(rows: multiset<Row>, a: multiset<Row>, b: multiset<Row>)
    ensures rows + a == rows + b <==> a == b
    ensures a + rows == b + rows <==> a == b
  {
    assert rows + a - rows == a && rows + b - rows == b;
    assert a + rows - rows == a && b + rows - rows == b;
  }

  /** What the first `k` records write is independent of the clock exactly when each of them is replayable
      where it is met. */
  lemma {:induction false} ClockFreeExactly(log: seq<Record>, k: nat, matches: string -> bool)
    requires k <= |log|
    ensures (forall times: seq<int> :: |times| == k ==> Exec(log, times, matches).1 == Exec(log, Zeros(k), matches).1)
            <==> forall i :: 0 <= i < k ==> ReplayableAt(log, i, matches)
  {
    if forall i :: 0 <= i < k ==> ReplayableAt(log, i, matches) {
      forall times: seq<int> | |times| == k ensures Exec(log, times, matches).1 == Exec(log, Zeros(k), matches).1 {
        ClockIsFree(log, times, matches);
      }
    } else {
      var i :| 0 <= i < k && !ReplayableAt(log, i, matches);
      ClockMattersHere(log, Zeros(i), matches);
      var times := ClockMatters(log, Zeros(i) + [1], k, matches);
    }
  }

  lemma {:induction false} CrashAtSomeTime(log: seq<Record>, first: Event, restart: Event, matches: string -> bool)
    requires |log| == 2 && log[0] == Stat(first) && log[1] == Stat(restart)
    requires first.connBegin.None? && first.streamBegin.None? && first.mediaBegin.Some?
    requires !Dated(restart) && restart.serverId == first.serverId && restart.instance != first.instance
    requires matches(first.mediaBegin.value.contentId)
    ensures !ReplayableAt(log, 1, matches) && Exec(log, [0, 0], matches).1 != Exec(log, [0, 1], matches).1
  {
    var begin := first.mediaBegin.value;
    ExecOne(log, [], 0, matches);
    assert [] + [0] == [0] && [0] + [0] == [0, 0] && [0] + [1] == [0, 1] && Zeros(1) == [0];
    NewServerIsNeverErased(map[], first, 0, matches);
    var st := Exec(log, [0], matches).0;
    assert st == AddStat(map[], first, 0, matches).1;
    assert begin.id in st[first.serverId].medias && st[first.serverId].medias[begin.id] == begin;
    ClockMattersHere(log, [0], matches);
  }

  /** It matters: a server with a media begin comes back as another instance, in an event without a date. */
  lemma {:induction false} RestartWithoutDate(begin: Begin, matches: string -> bool) returns (log: seq<Record>)
    requires matches(begin.contentId)
    ensures |log| == 2 && !ReplayableAt(log, 1, matches)
    ensures Exec(log, [0, 0], matches).1 != Exec(log, [0, 1], matches).1
  {
    var first := Event("server", 1, None, None, Some(begin), None, None, None);
    var restart := Event("server", 2, None, None, None, None, None, None);
    log := [Stat(first), Stat(restart)];
    CrashAtSomeTime(log, first, restart, matches);
  }

  // ---------- states equal up to servers with nothing pending ----------

  function Core(st: Servers): Servers {
    map id | id in st && !Empty(st[id]) :: st[id]
  }

  lemma {:induction false} CoreEqual(a: Servers, b: Servers, id: string)
    requires Core(a) == Core(b)
    ensures id in a && !Empty(a[id]) ==> id in b && a[id] == b[id]
    ensures id in a && Empty(a[id]) && id in b ==> Empty(b[id])
    ensures id in a && id !in b ==> Empty(a[id])
  {
    assert id in Core(a) <==> id in Core(b);
    if id in Core(a) { assert Core(a)[id] == Core(b)[id]; }
  }

  /** What an event does to a server does not depend on an empty predecessor. */
  lemma {:induction false} EmptyServerIsForgettable(serverId: string, s: Server, ev: Event, now: int,
                                                    matches: string -> bool)
    requires Empty(s)
    ensures AddToServer(serverId, s, ev, now, matches)
            == AddToServer(serverId, NewServer(ev.instance), ev, now, matches)
  {
    assert CrashRows(serverId, s, s.medias.Keys, EventTs(ev, now), matches) == multiset{};
  }

  /** States equal up to empty servers answer an event alike and stay equal. */
  lemma {:induction false} StepRespectsCore(a: Servers, b: Servers, ev: Event, now: int, matches: string -> bool)
    requires Core(a) == Core(b)
    ensures var (r, a', rows) := AddStat(a, ev, now, matches);
            var (r', b', rows') := AddStat(b, ev, now, matches);
            r == r' && rows == rows' && Core(a') == Core(b')
  {
    CoreEqual(a, b, ev.serverId);
    CoreEqual(b, a, ev.serverId);
    if ev.serverId in a && Empty(a[ev.serverId]) {
      EmptyServerIsForgettable(ev.serverId, a[ev.serverId], ev, now, matches);
    }
    if ev.serverId in b && Empty(b[ev.serverId]) {
      EmptyServerIsForgettable(ev.serverId, b[ev.serverId], ev, now, matches);
    }
    var a', b' := AddStat(a, ev, now, matches).1, AddStat(b, ev, now, matches).1;
    forall id ensures id in Core(a') <==> id in Core(b')
              ensures id in Core(a') ==> Core(a')[id] == Core(b')[id]
    {
      CoreEqual(a, b, id);
      CoreEqual(b, a, id);
    }
  }

  /** The events, each at its time. */
  function AddAll(st: Servers, evs: seq<Event>, times: seq<int>, matches: string -> bool): (Servers, seq<multiset<Row>>)
    requires |times| == |evs|
  {
    if evs == [] then (st, [])
    else
      var k := |evs| - 1;
      var (st', written) := AddAll(st, evs[..k], times[..k], matches);
      var (_, st'', rows) := AddStat(st', evs[k], times[k], matches);
      (st'', written + [rows])
  }

  /** ... and so under every later event sequence, writing the same rows event by event. */
  lemma {:induction false} EventsRespectCore(a: Servers, b: Servers, evs: seq<Event>, times: seq<int>,
                                             matches: string -> bool)
    requires Core(a) == Core(b) && |times| == |evs|
    ensures Core(AddAll(a, evs, times, matches).0) == Core(AddAll(b, evs, times, matches).0)
    ensures AddAll(a, evs, times, matches).1 == AddAll(b, evs, times, matches).1
  {
    if evs != [] {
      var k := |evs| - 1;
      EventsRespectCore(a, b, evs[..k], times[..k], matches);
      StepRespectsCore(AddAll(a, evs[..k], times[..k], matches).0, AddAll(b, evs[..k], times[..k], matches).0,
                       evs[k], times[k], matches);
    }
  }

  // ---------- the checkpoint ----------

  datatype Kind = Conn | Stream | Media

  function MapOf(s: Server, kind: Kind): map<string, Begin> {
    match kind
    case Conn => s.conns
    case Stream => s.streams
    case Media => s.medias
  }

  function Put(s: Server, kind: Kind, b: Begin): Server {
    match kind
    case Conn => s.(conns := s.conns[b.id := b])
    case Stream => s.(streams := s.streams[b.id := b])
    case Media => s.(medias := s.medias[b.id := b])
  }

  function BeginEvent(kind: Kind, serverId: string, instance: int, b: Begin): Event {
    match kind
    case Conn => Event(serverId, instance, Some(b), None, None, None, None, None)
    case Stream => Event(serverId, instance, None, Some(b), None, None, None, None)
    case Media => Event(serverId, instance, None, None, Some(b), None, None, None)
  }

  /** The begin filed under `key` in `st`. */
  predicate HasBegin(st: Servers, serverId: string, kind: Kind, key: string) {
    serverId in st && key in MapOf(st[serverId], kind)
  }

  function EventFor(st: Servers, serverId: string, kind: Kind, key: string): Event
    requires HasBegin(st, serverId, kind, key)
  {
    BeginEvent(kind, serverId, st[serverId].instance, MapOf(st[serverId], kind)[key])
  }

  /** `ev` re-creates one begin that is pending in `st`. */
  ghost predicate Pending(ev: Event, st: Servers) {
    exists kind, key :: HasBegin(st, ev.serverId, kind, key) && ev == EventFor(st, ev.serverId, kind, key)
  }

  /** `evs` lists the pending begins of `st`, each at least once, and nothing else. */
  ghost predicate IsSnapshot(evs: seq<Event>, st: Servers) {
    && (forall i :: 0 <= i < |evs| ==> Pending(evs[i], st))
    && (forall id, kind, key :: HasBegin(st, id, kind, key) ==> EventFor(st, id, kind, key) in evs)
  }

  lemma {:induction false} NonEmptyHasBegin(st: Servers, id: string)
    requires id in st
    ensures !Empty(st[id]) <==> exists kind, key :: HasBegin(st, id, kind, key)
  {
    if !Empty(st[id]) {
      var kind := if st[id].conns != map[] then Conn else if st[id].streams != map[] then Stream else Media;
      assert MapOf(st[id], kind) != map[];
      var key :| key in MapOf(st[id], kind);
      assert HasBegin(st, id, kind, key);
    }
  }

  lemma {:induction false} CoreHasBegin(a: Servers, b: Servers, id: string, kind: Kind, key: string)
    requires Core(a) == Core(b) && HasBegin(a, id, kind, key)
    ensures HasBegin(b, id, kind, key) && EventFor(a, id, kind, key) == EventFor(b, id, kind, key)
  {
    NonEmptyHasBegin(a, id);
    CoreEqual(a, b, id);
  }

  lemma {:induction false} SnapshotOfCore(evs: seq<Event>, a: Servers, b: Servers)
    requires IsSnapshot(evs, a) && Core(a) == Core(b)
    ensures IsSnapshot(evs, b)
  {
    forall i | 0 <= i < |evs| ensures Pending(evs[i], b) {
      assert Pending(evs[i], a);
      var kind, key :| HasBegin(a, evs[i].serverId, kind, key) && evs[i] == EventFor(a, evs[i].serverId, kind, key);
      CoreHasBegin(a, b, evs[i].serverId, kind, key);
    }
    forall id, kind, key | HasBegin(b, id, kind, key) ensures EventFor(b, id, kind, key) in evs {
      CoreHasBegin(b, a, id, kind, key);
    }
  }

  function Reload(evs: seq<Event>, k: nat, now: int, matches: string -> bool): Servers
    requires k <= |evs|
  {
    if k == 0 then map[] else AddStat(Reload(evs, k - 1, now, matches), evs[k - 1], now, matches).1
  }

  /** Adding a begin of the instance already there files it and writes nothing. */
  lemma {:induction false} AddBegin(st: Servers, serverId: string, kind: Kind, b: Begin, instance: int, now: int,
                                    matches: string -> bool)
    requires serverId in st ==> st[serverId].instance == instance
    ensures var ev := BeginEvent(kind, serverId, instance, b);
            AddStat(st, ev, now, matches) == (Success, st[serverId := Put(ServerFor(st, ev), kind, b)], multiset{})
  {
    var ev := BeginEvent(kind, serverId, instance, b);
    var s := Put(ServerFor(st, ev), kind, b);
    assert b.id in MapOf(s, kind);
  }

  /** Every begin of `part` is pending in `whole`, and no server of `part` is empty. */
  ghost predicate PartOf(part: Servers, whole: Servers) {
    && (forall id :: id in part ==> id in whole && !Empty(part[id]) && part[id].instance == whole[id].instance)
    && (forall id, kind, key :: HasBegin(part, id, kind, key) ==>
          HasBegin(whole, id, kind, key) && EventFor(part, id, kind, key) == EventFor(whole, id, kind, key))
  }

  /** Filing one more pending begin. */
  function Filed(part: Servers, id: string, instance: int, kind: Kind, b: Begin): Servers {
    part[id := Put(if id in part then part[id] else NewServer(instance), kind, b)]
  }

  lemma {:induction false} FiledHas(part: Servers, id: string, instance: int, kind: Kind, b: Begin, id': string,
                                    kind': Kind, key: string)
    requires id in part ==> part[id].instance == instance
    ensures HasBegin(Filed(part, id, instance, kind, b), id', kind', key)
            <==> (id', kind', key) == (id, kind, b.id) || HasBegin(part, id', kind', key)
    ensures HasBegin(Filed(part, id, instance, kind, b), id', kind', key) ==>
              EventFor(Filed(part, id, instance, kind, b), id', kind', key)
              == if (id', kind', key) == (id, kind, b.id) then BeginEvent(kind, id, instance, b)
                 else EventFor(part, id', kind', key)
  {
  }

  lemma {:induction false} FiledIsPart(part: Servers, whole: Servers, id: string, kind: Kind, key: string)
    requires PartOf(part, whole) && KeyedServers(whole) && HasBegin(whole, id, kind, key)
    ensures PartOf(Filed(part, id, whole[id].instance, kind, MapOf(whole[id], kind)[key]), whole)
  {
    var b, instance := MapOf(whole[id], kind)[key], whole[id].instance;
    var part' := Filed(part, id, instance, kind, b);
    assert b.id == key by { assert Keyed(whole[id]); }
    assert !Empty(part'[id]) by { assert b.id in MapOf(part'[id], kind); }
    forall id', kind', key' | HasBegin(part', id', kind', key')
      ensures HasBegin(whole, id', kind', key')
      ensures EventFor(part', id', kind', key') == EventFor(whole, id', kind', key')
    {
      FiledHas(part, id, instance, kind, b, id', kind', key');
    }
  }

  /** Re-adding one pending begin succeeds, writes nothing, and keeps what is already there. */
  lemma {:induction false} ReloadOne(part: Servers, st: Servers, ev: Event, now: int, matches: string -> bool)
    requires PartOf(part, st) && KeyedServers(st) && Pending(ev, st)
    ensures var (r, part', rows) := AddStat(part, ev, now, matches);
            && r == Success && rows == multiset{}
            && PartOf(part', st) && Pending(ev, part')
            && (forall e :: Pending(e, part) ==> Pending(e, part'))
  {
    var id := ev.serverId;
    var kind, key :| HasBegin(st, id, kind, key) && ev == EventFor(st, id, kind, key);
    var b := MapOf(st[id], kind)[key];
    assert b.id == key by { assert Keyed(st[id]); }
    AddBegin(part, id, kind, b, st[id].instance, now, matches);
    FiledIsPart(part, st, id, kind, key);
    FiledHas(part, id, st[id].instance, kind, b, id, kind, key);
    var part' := Filed(part, id, st[id].instance, kind, b);
    assert AddStat(part, ev, now, matches).1 == part';
    forall e | Pending(e, part) ensures Pending(e, part') {
      StillPending(e, part, st, id, kind, key);
    }
  }

  /** `part` is a well-formed piece of `st` that holds the begins listed so far. */
  ghost predicate Holds(part: Servers, st: Servers, evs: seq<Event>) {
    PartOf(part, st) && forall i :: 0 <= i < |evs| ==> Pending(evs[i], part)
  }

  lemma {:induction false} TakeOneMore(evs: seq<Event>, k: nat)
    requires 0 < k <= |evs|
    ensures evs[..k] == evs[..k - 1] + [evs[k - 1]]
  {
  }

  /** The first `k` events are reloaded. */
  ghost predicate Reloaded(evs: seq<Event>, k: nat, st: Servers, now: int, matches: string -> bool)
    requires k <= |evs|
  {
    Holds(Reload(evs, k, now, matches), st, evs[..k])
  }

  /** What `Reload` does with the last of them. */
  lemma {:induction false} ReloadStep(evs: seq<Event>, k: nat, st: Servers, now: int, matches: string -> bool)
    requires 0 < k <= |evs| && KeyedServers(st) && Pending(evs[k - 1], st)
    requires Reloaded(evs, k - 1, st, now, matches)
    ensures AddStat(Reload(evs, k - 1, now, matches), evs[k - 1], now, matches).0 == Success
    ensures AddStat(Reload(evs, k - 1, now, matches), evs[k - 1], now, matches).2 == multiset{}
    ensures Reloaded(evs, k, st, now, matches)
  {
    var part, part' := Reload(evs, k - 1, now, matches), Reload(evs, k, now, matches);
    assert part' == AddStat(part, evs[k - 1], now, matches).1;
    ReloadOne(part, st, evs[k - 1], now, matches);
    TakeOneMore(evs, k);
  }

  lemma {:induction false} ReloadParts(evs: seq<Event>, k: nat, st: Servers, now: int, matches: string -> bool)
    requires k <= |evs| && KeyedServers(st) && forall i :: 0 <= i < |evs| ==> Pending(evs[i], st)
    ensures Reloaded(evs, k, st, now, matches)
  {
    if k > 0 {
      ReloadParts(evs, k - 1, st, now, matches);
      ReloadStep(evs, k, st, now, matches);
    }
  }

  /** Loading a snapshot never fails and never writes a row. */
  lemma {:induction false} LoadIsSilent(evs: seq<Event>, k: nat, st: Servers, now: int, matches: string -> bool)
    requires 0 < k <= |evs| && KeyedServers(st) && IsSnapshot(evs, st)
    ensures AddStat(Reload(evs, k - 1, now, matches), evs[k - 1], now, matches).0 == Success
    ensures AddStat(Reload(evs, k - 1, now, matches), evs[k - 1], now, matches).2 == multiset{}
  {
    ReloadParts(evs, k - 1, st, now, matches);
    ReloadStep(evs, k, st, now, matches);
  }

  lemma {:induction false} StillPending(e: Event, part: Servers, whole: Servers, id: string, kind: Kind, key: string)
    requires PartOf(part, whole) && KeyedServers(whole) && HasBegin(whole, id, kind, key) && Pending(e, part)
    ensures Pending(e, Filed(part, id, whole[id].instance, kind, MapOf(whole[id], kind)[key]))
  {
    var kind', key' :| HasBegin(part, e.serverId, kind', key') && e == EventFor(part, e.serverId, kind', key');
    var b := MapOf(whole[id], kind)[key];
    assert b.id == key by { assert Keyed(whole[id]); }
    FiledHas(part, id, whole[id].instance, kind, b, e.serverId, kind', key');
  }

  lemma {:induction false} ListedIsPart(evs: seq<Event>, part: Servers, st: Servers, id: string, kind: Kind,
                                        key: string)
    requires PartOf(part, st) && KeyedServers(st) && IsSnapshot(evs, st)
    requires forall i :: 0 <= i < |evs| ==> Pending(evs[i], part)
    requires HasBegin(st, id, kind, key)
    ensures HasBegin(part, id, kind, key)
  {
    var ev := EventFor(st, id, kind, key);
    assert ev in evs && ev.serverId == id;
    assert Pending(ev, part);
    var kind', key' :| HasBegin(part, id, kind', key') && ev == EventFor(part, id, kind', key');
    assert HasBegin(st, id, kind', key') && EventFor(st, id, kind', key') == ev;
    assert key == key' by { assert Keyed(st[id]); }
  }

  /** Loading what was saved rebuilds the state up to servers with nothing pending. */
  lemma {:induction false} CheckpointRoundTrip(evs: seq<Event>, st: Servers, now: int, matches: string -> bool)
    requires KeyedServers(st) && IsSnapshot(evs, st)
    ensures Reload(evs, |evs|, now, matches) == Core(st)
  {
    var part := Reload(evs, |evs|, now, matches);
    ReloadParts(evs, |evs|, st, now, matches);
    assert evs[..|evs|] == evs;
    forall id ensures id in part <==> id in Core(st)
              ensures id in part ==> part[id] == st[id]
    {
      if id in st { NonEmptyHasBegin(st, id); }
      if id in part { NonEmptyHasBegin(part, id); }
      forall kind, key | HasBegin(st, id, kind, key) ensures HasBegin(part, id, kind, key) {
        ListedIsPart(evs, part, st, id, kind, key);
      }
      if id in part { SameServer(part, st, id); }
    }
  }

  lemma {:induction false} SameServer(part: Servers, st: Servers, id: string)
    requires id in part && PartOf(part, st)
    requires forall kind, key :: HasBegin(st, id, kind, key) ==> HasBegin(part, id, kind, key)
    ensures part[id] == st[id]
  {
    forall kind ensures MapOf(part[id], kind) == MapOf(st[id], kind) {
      forall key ensures key in MapOf(part[id], kind) <==> key in MapOf(st[id], kind)
                 ensures key in MapOf(part[id], kind) ==> MapOf(part[id], kind)[key] == MapOf(st[id], kind)[key]
      {
        assert HasBegin(st, id, kind, key) <==> HasBegin(part, id, kind, key);
        if HasBegin(part, id, kind, key) {
          assert EventFor(part, id, kind, key) == EventFor(st, id, kind, key);
        }
      }
    }
    assert MapOf(part[id], Conn) == MapOf(st[id], Conn) && MapOf(part[id], Stream) == MapOf(st[id], Stream)
           && MapOf(part[id], Media) == MapOf(st[id], Media);
  }
}
