/**
 The statistics post-processor as objects: the SQL saver, the per-server statistics, and the
 processing loop with its transactions, roll-backs and checkpoints.
 */
module StatsRun {
  import opened Options
  import opened StatsModel

  datatype EndResult = Committed | CommitFailed | NoTransaction

  /** The SQL server behind the saver: committed rows, and those of the open transaction. Whether
      an operation succeeds is not known to the program; `lost` counts the commits that the server has
      carried out without the program learning of it. */
  class Saver {
    var committed: multiset<Row>
    var lost: nat
    var tx: multiset<Row>
    var connected: bool
    var inTx: bool

    function State(): SaverState
      reads this
    {
      SaverState(committed, tx, connected, inTx, lost)
    }

    method ClearConnection()
      modifies this
      ensures !connected && !inTx && committed == old(committed) && lost == old(lost)
    {
      connected, inTx, tx := false, false, multiset{};
    }

    method InitializeConnection() returns (ok: bool)
      modifies this
      ensures ok == connected && !inTx && committed == old(committed) && lost == old(lost)
    {
      ok := *;
      connected, inTx, tx := ok, false, multiset{};
    }

    method BeginTransaction() returns (ok: bool)
      modifies this
      ensures committed == old(committed) && lost == old(lost) && ok == inTx
      ensures ok ==> connected && tx == multiset{}
    {
      ok := *;
      ok := ok && connected;
      if ok {
        inTx, tx := true, multiset{};
      } else {
        ClearConnection();
      }
    }

    /** A row that cannot be written costs the connection, and with it the transaction. */
    method Save(row: Row) returns (ok: bool)
      modifies this
      ensures committed == old(committed) && lost == old(lost)
      ensures ok == connected && (ok ==> old(connected) && inTx == old(inTx) && tx == old(tx) + multiset{row})
      ensures !ok ==> !inTx
    {
      ok := *;
      ok := ok && connected;
      if ok {
        tx := tx + multiset{row};
      } else {
        ClearConnection();
      }
    }

    /** NoTransaction is the CHECK that aborts the process. A commit that fails may have been carried out all
        the same, when only the answer of the server was lost. */
    method EndTransaction() returns (r: EndResult)
      modifies this
      ensures r == NoTransaction <==> !old(inTx)
      ensures lost == old(lost) || (lost == old(lost) + 1 && r == CommitFailed)
      ensures committed == if r == Committed || lost > old(lost) then old(committed) + old(tx) else old(committed)
      ensures r == Committed ==> connected == old(connected)
    {
      if !inTx {
        return NoTransaction;
      }
      var ok: bool, arrived: bool := *, *;
      if ok {
        committed, tx, inTx := committed + tx, multiset{}, false;
        r := Committed;
      } else {
        if arrived {
          committed, lost := committed + tx, lost + 1;
        }
        ClearConnection();
        r := CommitFailed;
      }
    }
  }

  datatype SaverState = SaverState(committed: multiset<Row>, tx: multiset<Row>, connected: bool, inTx: bool, lost: nat)

  /** The effect of writing `rows`: while the connection holds they are in the open transaction;
      nothing is committed, and with no row to write nothing can go wrong. */
  predicate Wrote(a: SaverState, b: SaverState, rows: multiset<Row>) {
    && b.committed == a.committed && b.lost == a.lost
    && (rows == multiset{} ==> b.connected == a.connected)
    && (b.connected ==> a.connected && b.tx == a.tx + rows && b.inTx == a.inTx)
    && ((a.inTx ==> a.connected) ==> (b.inTx ==> b.connected))
  }

  lemma {:induction false} WroteBoth(a: SaverState, b: SaverState, c: SaverState, first: multiset<Row>,
                                     second: multiset<Row>)
    requires Wrote(a, b, first) && Wrote(b, c, second)
    ensures Wrote(a, c, first + second)
  {
    if first + second == multiset{} {
      assert first <= first + second && second <= first + second;
    }
  }

  /** The saver and a server follow the model of one event as long as the connection holds. */
  predicate ServerFollowed(id: string, s: Server, a: SaverState, ev: Event, now: int, matches: string -> bool,
                           r: Status, s': Server, b: SaverState) {
    var spec := AddToServer(id, s, ev, now, matches);
    && Wrote(a, b, spec.2)
    && (b.connected || spec.2 == multiset{} ==> r == spec.0 && s' == spec.1)
    && (r == SqlError ==> !b.connected)
  }

  predicate Followed(st: Servers, a: SaverState, ev: Event, now: int, matches: string -> bool,
                     r: Status, st': Servers, b: SaverState) {
    var spec := StatsModel.AddStat(st, ev, now, matches);
    && Wrote(a, b, spec.2)
    && (b.connected || spec.2 == multiset{} ==> r == spec.0 && st' == spec.1)
    && (r == SqlError ==> !b.connected)
  }

  lemma {:induction false} FollowedThrough(st: Servers, a: SaverState, ev: Event, now: int, matches: string -> bool,
                        r: Status, s: Server, s': Server, b: SaverState)
    requires ServerFollowed(ev.serverId, ServerFor(st, ev), a, ev, now, matches, r, s', b)
    ensures var id := ev.serverId;
            var st' := st[id := s][id := s'];
            Followed(st, a, ev, now, matches, r, if r == Success && Empty(s') then st' - {id} else st', b)
    ensures ev.serverId !in st && r == Success ==> !Empty(s')
  {
    var id := ev.serverId;
    assert st[id := s][id := s'] == st[id := s'];
    assert st[id := s'] - {id} == st - {id};
    if id !in st {
      NewServerIsNeverErased(st, ev, now, matches);
    }
  }

  lemma {:induction false} FollowedSilently(evs: seq<Event>, i: nat, st: Servers, mem: Servers, a: SaverState,
                                            now: int, matches: string -> bool,
                         r: Status, mem': Servers, b: SaverState)
    requires i < |evs| && KeyedServers(st) && IsSnapshot(evs, st) && mem == Reload(evs, i, now, matches)
    requires Followed(mem, a, evs[i], now, matches, r, mem', b)
    ensures mem' == Reload(evs, i + 1, now, matches)
    ensures b.committed == a.committed && b.lost == a.lost && b.connected == a.connected && r == Success
  {
    LoadIsSilent(evs, i + 1, st, now, matches);
  }

  ghost predicate RowsOf(rows: multiset<Row>, serverId: string, s: Server, keys: set<string>, ts: int,
                         matches: string -> bool)
  {
    keys <= s.medias.Keys && rows == CrashRows(serverId, s, keys, ts, matches)
  }

  lemma {:induction false} CrashRowsAdd(rows: multiset<Row>, serverId: string, s: Server, done: set<string>,
                                        k: string, ts: int, matches: string -> bool)
    requires RowsOf(rows, serverId, s, done, ts, matches)
    requires done <= s.medias.Keys && k in s.medias && k !in done && KeyedMap(s.medias)
    ensures RowsOf(rows + MediaRows(serverId, s.instance, s.medias[k],
                                    End(s.medias[k].id, ts, "SERVER CRASH"), matches),
                   serverId, s, done + {k}, ts, matches)
  {
    var before := set j | j in done && matches(s.medias[j].contentId) ::
      CrashRow(serverId, s.instance, s.medias[j], ts);
    var after := set j | j in done + {k} && matches(s.medias[j].contentId) ::
      CrashRow(serverId, s.instance, s.medias[j], ts);
    var row := CrashRow(serverId, s.instance, s.medias[k], ts);
    assert row !in before;
    if matches(s.medias[k].contentId) {
      assert k in done + {k} && row in after;
      assert after == before + {row};
    } else {
      assert after == before;
    }
  }

  class ServerStats {
    const saver: Saver
    const serverId: string
    const matches: string -> bool
    var instance: int
    var conns: map<string, Begin>
    var streams: map<string, Begin>
    var medias: map<string, Begin>

    constructor (saver: Saver, serverId: string, instance: int, matches: string -> bool)
      ensures this.saver == saver && this.serverId == serverId && this.matches == matches
      ensures Value() == NewServer(instance)
    {
      this.saver, this.serverId, this.matches, this.instance := saver, serverId, matches, instance;
      conns, streams, medias := map[], map[], map[];
    }

    function Value(): Server
      reads this
    {
      Server(instance, conns, streams, medias)
    }

    method CompleteMediaStat(begin: Begin, end: End) returns (r: Status)
      modifies saver
      ensures Wrote(old(saver.State()), saver.State(), MediaRows(serverId, instance, begin, end, matches))
      ensures saver.connected || MediaRows(serverId, instance, begin, end, matches) == multiset{} ==> r == Success
      ensures r == SqlError ==> !saver.connected
    {
      if !matches(begin.contentId) {
        return Success;
      }
      var ok := saver.Save(Row(serverId, instance, begin, end));
      r := if ok then Success else SqlError;
    }

    method CompleteAllStats(ts: int)
      requires KeyedMap(medias)
      modifies this`conns, this`streams, this`medias, saver
      ensures Value() == NewServer(instance)
      ensures Wrote(old(saver.State()), saver.State(), CrashRows(serverId, old(Value()), old(medias).Keys, ts, matches))
    {
      ghost var s, rows, start := Value(), multiset{}, saver.State();
      var todo := medias.Keys;
      ghost var done: set<string> := {};
      while todo != {}
        invariant todo !! done && todo + done == s.medias.Keys
        invariant Value() == s
        invariant RowsOf(rows, serverId, s, done, ts, matches)
        invariant Wrote(start, saver.State(), rows)
        decreases todo
      {
        var k :| k in todo;
        CrashRowsAdd(rows, serverId, s, done, k, ts, matches);
        ghost var more := MediaRows(serverId, instance, medias[k], End(medias[k].id, ts, "SERVER CRASH"), matches);
        ghost var before := saver.State();
        var _ := CompleteMediaStat(medias[k], End(medias[k].id, ts, "SERVER CRASH"));
        WroteBoth(start, before, saver.State(), rows, more);
        todo, done, rows := todo - {k}, done + {k}, rows + more;
      }
      assert done == s.medias.Keys;
      medias, streams, conns := map[], map[], map[];
    }

    /** While the connection holds, the object and the open transaction follow the model. */
    method AddStat(ev: Event, now: int) returns (r: Status)
      requires ev.serverId == serverId && Keyed(Value())
      modifies this, saver
      ensures Keyed(Value())
      ensures ServerFollowed(serverId, old(Value()), old(saver.State()), ev, now, matches, r, Value(), saver.State())
    {
      if ev.instance != instance {
        CompleteAllStats(EventTs(ev, now));
        instance := ev.instance;
      }
      if ev.connBegin.Some? {
        conns := conns[ev.connBegin.value.id := ev.connBegin.value];
        return Success;
      }
      if ev.streamBegin.Some? {
        streams := streams[ev.streamBegin.value.id := ev.streamBegin.value];
        return Success;
      }
      if ev.mediaBegin.Some? {
        medias := medias[ev.mediaBegin.value.id := ev.mediaBegin.value];
        return Success;
      }
      if ev.connEnd.Some? {
        var id := ev.connEnd.value.id;
        if id !in conns {
          return InternalError;
        }
        conns := conns - {id};
        return Success;
      }
      if ev.streamEnd.Some? {
        var id := ev.streamEnd.value.id;
        if id !in streams {
          return InternalError;
        }
        streams := streams - {id};
        return Success;
      }
      if ev.mediaEnd.Some? {
        var id := ev.mediaEnd.value.id;
        if id !in medias {
          return InternalError;
        }
        r := CompleteMediaStat(medias[id], ev.mediaEnd.value);
        medias := medias - {id};
        return;
      }
      r := InternalError;
    }

    method Empty() returns (b: bool)
      ensures b == StatsModel.Empty(Value())
    {
      b := conns == map[] && streams == map[] && medias == map[];
    }
  }

  /** Log position and pending begins, as written to disk. */
  datatype Checkpoint = Checkpoint(pos: nat, pending: seq<Event>)

  /** How a process ends: asked to stop, aborted by a CHECK inside a transaction, killed inside one, or
      dead between a commit and the checkpoint that should follow it. */
  datatype Exit = Stopped | AbortedInTransaction | KilledInTransaction | DiedBeforeSave

  datatype Finished = Saved | NotSaved | RolledBack | NotInTransaction | Killed

  /** The log of one step: in-memory states equal up to empty servers stay in step with Exec. */
  lemma {:induction false} LogStep(log: seq<Record>, times: seq<int>, mem: Servers, ev: Event, now: int,
                                   matches: string -> bool)
    requires |times| < |log| && log[|times|] == Stat(ev)
    requires Core(mem) == Core(Exec(log, times, matches).0)
    ensures var (r, mem', rows) := AddStat(mem, ev, now, matches);
            && Core(mem') == Core(Exec(log, times + [now], matches).0)
            && Exec(log, times + [now], matches).1 == Exec(log, times, matches).1 + rows
  {
    ExecOne(log, times, now, matches);
    StepRespectsCore(mem, Exec(log, times, matches).0, ev, now, matches);
  }

  /** The checkpoint and the committed rows are those of the uninterrupted run at `times`, plus `repeats`. */
  ghost predicate OnDisk(log: seq<Record>, cp: Checkpoint, times: seq<int>, committed: multiset<Row>,
                         repeats: multiset<Row>, matches: string -> bool) {
    && |times| == cp.pos <= |log|
    && committed == Exec(log, times, matches).1 + repeats
    && IsSnapshot(cp.pending, Exec(log, times, matches).0)
  }

  /** A transaction under way: unless the connection broke, memory and transaction hold what the
      uninterrupted run has made of the records at `times`. */
  ghost predicate Advanced(log: seq<Record>, times: seq<int>, mem: Servers, db: SaverState, repeats: multiset<Row>,
                           matches: string -> bool) {
    && |times| <= |log|
    && (db.inTx ==> db.connected)
    && (db.connected ==>
          && db.inTx
          && Core(mem) == Core(Exec(log, times, matches).0)
          && db.committed + db.tx == Exec(log, times, matches).1 + repeats)
  }

  lemma {:induction false} AdvancedOne(log: seq<Record>, times: seq<int>, mem: Servers, db: SaverState,
                                       repeats: multiset<Row>, matches: string -> bool, ev: Event, now: int,
                                       r: Status, mem': Servers, db': SaverState)
    requires Advanced(log, times, mem, db, repeats, matches)
    requires |times| < |log| && log[|times|] == Stat(ev)
    requires Followed(mem, db, ev, now, matches, r, mem', db')
    ensures Advanced(log, times + [now], mem', db', repeats, matches)
  {
    if db'.connected {
      LogStep(log, times, mem, ev, now, matches);
      var rows := StatsModel.AddStat(mem, ev, now, matches).2;
      SumShift(db.committed, db.tx, rows, Exec(log, times, matches).1, repeats);
    }
  }

  lemma {:induction false} TransactionStarts(log: seq<Record>, times: seq<int>, mem: Servers, db: SaverState,
                                             cp: Checkpoint, repeats: multiset<Row>, matches: string -> bool)
    requires OnDisk(log, cp, times, db.committed, repeats, matches)
    requires Core(mem) == Core(Exec(log, times, matches).0)
    requires db.inTx && db.connected && db.tx == multiset{}
    ensures Advanced(log, times, mem, db, repeats, matches)
  {
    assert db.committed + db.tx == db.committed;
  }

  /** A commit followed by its checkpoint: nothing is repeated and nothing is lost. */
  lemma {:induction false} CommitSaved(log: seq<Record>, times: seq<int>, mem: Servers, db: SaverState, cp: Checkpoint,
                                       repeats: multiset<Row>, matches: string -> bool)
    requires Advanced(log, times, mem, db, repeats, matches) && db.inTx
    requires cp.pos == |times| && IsSnapshot(cp.pending, mem)
    ensures OnDisk(log, cp, times, db.committed + db.tx, repeats, matches)
  {
    SnapshotOfCore(cp.pending, mem, Exec(log, times, matches).0);
  }

  /** A commit without its checkpoint: exactly the batch's rows will be written once more. */
  lemma {:induction false} CommitUnsaved(log: seq<Record>, saved: seq<int>, times: seq<int>, mem: Servers,
                                         db: SaverState,
                                         cp: Checkpoint, repeats: multiset<Row>, matches: string -> bool)
    requires Advanced(log, times, mem, db, repeats, matches) && db.inTx && saved <= times
    requires OnDisk(log, cp, saved, db.committed, repeats, matches)
    ensures OnDisk(log, cp, saved, db.committed + db.tx,
                   repeats + BatchRows(log, Batch(|saved|, times), matches), matches)
  {
    assert times[..|saved|] == saved;
    BatchRepeats(log, |saved|, times, repeats, matches);
  }

  lemma {:induction false} BatchRepeats(log: seq<Record>, j: nat, times: seq<int>, repeats: multiset<Row>,
                                        matches: string -> bool)
    requires j <= |times| <= |log|
    ensures Exec(log, times, matches).1 + repeats
            == Exec(log, times[..j], matches).1 + (repeats + BatchRows(log, Batch(j, times), matches))
  {
    RowsGrow(log, j, times, matches);
  }

  lemma {:induction false} SumShift(committed: multiset<Row>, tx: multiset<Row>, rows: multiset<Row>,
                                    done: multiset<Row>, repeats: multiset<Row>)
    requires committed + tx == done + repeats
    ensures committed + (tx + rows) == done + rows + repeats
  {
    assert committed + (tx + rows) == (committed + tx) + rows;
  }

  class StatsPostProcessor {
    const log: seq<Record>
    const matches: string -> bool
    const saver: Saver
    var pos: nat
    var servers: map<string, ServerStats>
    ghost var repr: set<ServerStats>
    var checkpoint: Checkpoint
    /** When the records read so far were processed, and those of the checkpoint. */
    ghost var times: seq<int>
    ghost var saved: seq<int>

    /** A fresh process over what earlier ones left on disk. */
    constructor (log: seq<Record>, matches: string -> bool, saver: Saver, checkpoint: Checkpoint, ghost saved: seq<int>)
      ensures this.log == log && this.matches == matches && this.saver == saver
      ensures this.checkpoint == checkpoint && this.saved == saved
      ensures servers == map[] && pos == 0 && Valid() && repr == {}
    {
      this.log, this.matches, this.saver, this.checkpoint := log, matches, saver, checkpoint;
      pos, servers, repr := 0, map[], {};
      times, this.saved := [], saved;
    }

    ghost predicate Valid()
      reads this`servers, this`repr, repr
    {
      forall id :: id in servers ==>
        && servers[id] in repr && servers[id].serverId == id
        && servers[id].saver == saver && servers[id].matches == matches
        && Keyed(servers[id].Value())
    }

    ghost function State(): Servers
      requires Valid()
      reads this`servers, this`repr, repr
    {
      map id | id in servers :: servers[id].Value()
    }

    /** What is on disk is what one uninterrupted run over the log up to the checkpoint leaves:
        its pending begins, and its rows plus those written twice by processes that died. */
    ghost predicate Transparent(repeats: multiset<Row>)
      reads this`checkpoint, this`saved, saver`committed
    {
      OnDisk(log, checkpoint, saved, saver.committed, repeats, matches)
    }

    /** The memory is that of the uninterrupted run over the records read so far. */
    ghost predicate InStep()
      requires Valid()
      reads this`pos, this`times, this`servers, this`repr, repr
    {
      |times| == pos <= |log| && Core(State()) == Core(Exec(log, times, matches).0)
    }

    method FindServer(ev: Event) returns (server: ServerStats)
      requires Valid()
      modifies this`servers, this`repr
      ensures Valid() && fresh(repr - old(repr)) && server in repr
      ensures server.saver == saver && server.matches == matches && server.serverId == ev.serverId
      ensures servers == old(servers)[ev.serverId := server]
      ensures server.Value() == ServerFor(old(State()), ev)
      ensures State() == old(State())[ev.serverId := server.Value()]
    {
      if ev.serverId in servers {
        server := servers[ev.serverId];
        assert servers == servers[ev.serverId := server];
        assert State() == State()[ev.serverId := server.Value()];
      } else {
        server := AddServer(ev.serverId, ev.instance);
      }
    }

    method AddServer(serverId: string, instance: int) returns (server: ServerStats)
      requires Valid() && serverId !in servers
      modifies this`servers, this`repr
      ensures Valid() && fresh(repr - old(repr)) && server in repr
      ensures server.saver == saver && server.matches == matches && server.serverId == serverId
      ensures servers == old(servers)[serverId := server] && server.Value() == NewServer(instance)
      ensures State() == old(State())[serverId := server.Value()]
    {
      ghost var before := State();
      server := new ServerStats(saver, serverId, instance, matches);
      assert Valid() && State() == before;
      Insert(server);
    }

    method Insert(server: ServerStats)
      requires Valid() && server.saver == saver && server.matches == matches && Keyed(server.Value())
      modifies this`servers, this`repr
      ensures Valid() && repr == old(repr) + {server}
      ensures servers == old(servers)[server.serverId := server]
      ensures State() == old(State())[server.serverId := server.Value()]
    {
      servers, repr := servers[server.serverId := server], repr + {server};
    }

    method Dispatch(server: ServerStats, ev: Event, now: int) returns (r: Status)
      requires Valid() && ev.serverId in servers && servers[ev.serverId] == server
      modifies server, saver
      ensures Valid() && State() == old(State())[ev.serverId := server.Value()]
      ensures ServerFollowed(ev.serverId, old(server.Value()), old(saver.State()), ev, now, matches,
                             r, server.Value(), saver.State())
    {
      r := server.AddStat(ev, now);
    }

    method DropIfEmpty(server: ServerStats)
      requires Valid() && server.serverId in servers && servers[server.serverId] == server
      modifies this`servers
      ensures Valid()
      ensures State() == if Empty(server.Value()) then old(State()) - {server.serverId} else old(State())
    {
      var empty := server.Empty();
      if empty {
        servers := servers - {server.serverId};
      }
    }

    method AddStat(ev: Event, now: int) returns (r: Status)
      requires Valid()
      modifies this`servers, this`repr, repr, saver
      ensures Valid() && fresh(repr - old(repr))
      ensures Followed(old(State()), old(saver.State()), ev, now, matches, r, State(), saver.State())
    {
      ghost var before, start := State(), saver.State();
      var server := FindServer(ev);
      ghost var found := server.Value();
      r := Dispatch(server, ev, now);
      FollowedThrough(before, start, ev, now, matches, r, found, server.Value(), saver.State());
      if r == Success {
        DropIfEmpty(server);
      }
    }

    /** Lists the pending begins of one map. */
    method ListBegins(kind: Kind, serverId: string, instance: int, m: map<string, Begin>) returns (evs: seq<Event>)
      ensures Lists(evs, kind, serverId, instance, m, m.Keys)
    {
      evs := [];
      var todo := m.Keys;
      while todo != {}
        invariant todo <= m.Keys
        invariant Lists(evs, kind, serverId, instance, m, m.Keys - todo)
        decreases todo
      {
        var k :| k in todo;
        ghost var before := evs;
        evs := evs + [BeginEvent(kind, serverId, instance, m[k])];
        ListsOneMore(before, kind, serverId, instance, m, m.Keys - todo, k);
        todo := todo - {k};
        assert m.Keys - todo == (m.Keys - (todo + {k})) + {k};
      }
    }

    method ListPending() returns (evs: seq<Event>)
      requires Valid()
      ensures IsSnapshot(evs, State())
    {
      ghost var st := State();
      evs := [];
      var todo := servers.Keys;
      while todo != {}
        invariant todo <= servers.Keys
        invariant forall i :: 0 <= i < |evs| ==> Pending(evs[i], st)
        invariant forall id, kind, key :: HasBegin(st, id, kind, key) && id !in todo ==>
                  EventFor(st, id, kind, key) in evs
        decreases todo
      {
        var id :| id in todo;
        var server := servers[id];
        assert st[id] == server.Value();
        var a := ListBegins(Conn, id, server.instance, server.conns);
        var b := ListBegins(Stream, id, server.instance, server.streams);
        var c := ListBegins(Media, id, server.instance, server.medias);
        ListedPending(st, id, a, b, c);
        ghost var before := evs;
        evs := evs + (a + b + c);
        todo := todo - {id};
        forall id', kind, key | HasBegin(st, id', kind, key) && id' !in todo
          ensures EventFor(st, id', kind, key) in evs {
          if id' == id {
            assert EventFor(st, id', kind, key) in a + b + c;
          } else {
            assert EventFor(st, id', kind, key) in before;
          }
        }
      }
    }

    /** Writing the checkpoint; on failure the old one stays and the process aborts. */
    method Save() returns (ok: bool)
      requires Valid()
      modifies this`checkpoint
      ensures Valid()
      ensures if ok then checkpoint.pos == pos && IsSnapshot(checkpoint.pending, State())
              else checkpoint == old(checkpoint)
    {
      var pending := ListPending();
      ok := *;
      if ok {
        checkpoint := Checkpoint(pos, pending);
      }
    }

    method RestoreOne(evs: seq<Event>, i: nat, now: int, ghost st: Servers)
      requires Valid() && i < |evs| && KeyedServers(st) && IsSnapshot(evs, st)
      requires State() == Reload(evs, i, now, matches)
      modifies this`servers, this`repr, repr, saver
      ensures Valid() && fresh(repr - old(repr))
      ensures State() == Reload(evs, i + 1, now, matches)
      ensures saver.committed == old(saver.committed) && saver.lost == old(saver.lost)
              && saver.connected == old(saver.connected)
    {
      ghost var mem, db := State(), saver.State();
      var r := AddStat(evs[i], now);
      FollowedSilently(evs, i, st, mem, db, now, matches, r, State(), saver.State());
    }

    /** Re-adds the begins of a checkpoint to an empty memory. */
    method Restore(evs: seq<Event>, now: int, ghost st: Servers)
      requires Valid() && KeyedServers(st) && IsSnapshot(evs, st)
      requires State() == Reload(evs, 0, now, matches)
      modifies this`servers, this`repr, repr, saver
      ensures Valid() && fresh(repr - old(repr))
      ensures State() == Reload(evs, |evs|, now, matches)
      ensures saver.committed == old(saver.committed) && saver.lost == old(saver.lost)
              && saver.connected == old(saver.connected)
    {
      for i := 0 to |evs|
        invariant Valid() && fresh(repr - old(repr))
        invariant State() == Reload(evs, i, now, matches)
        invariant saver.committed == old(saver.committed) && saver.lost == old(saver.lost)
              && saver.connected == old(saver.connected)
      {
        RestoreOne(evs, i, now, st);
      }
    }

    /** Clears the memory and goes back to the last checkpoint. */
    method Load(ghost repeats: multiset<Row>)
      requires Valid() && Transparent(repeats)
      modifies this`servers, this`repr, this`pos, this`times, repr, saver
      ensures Valid() && fresh(repr - old(repr))
      ensures InStep() && times == saved
      ensures saver.committed == old(saver.committed) && saver.lost == old(saver.lost)
              && saver.connected == old(saver.connected)
    {
      ghost var st := Exec(log, saved, matches).0;
      ExecKeyed(log, saved, matches);
      servers := map[];
      pos, times := checkpoint.pos, saved;
      var now: int := *;
      Restore(checkpoint.pending, now, st);
      CheckpointRoundTrip(checkpoint.pending, st, now, matches);
      CoreTwice(st);
    }

    /** A transaction is under way. */
    ghost predicate UnderWay(repeats: multiset<Row>)
      requires Valid()
      reads this`pos, this`times, this`servers, this`repr, repr, saver
    {
      |times| == pos && Advanced(log, times, State(), saver.State(), repeats, matches)
    }

    /** Reads, processes and saves records inside one transaction; `budget` bounds how often the
        exit event is polled before it fires. */
    method ProcessRecords(budget: nat, limit: nat, ghost repeats: multiset<Row>) returns (left: nat)
      requires Valid() && UnderWay(repeats)
      modifies this`servers, this`repr, this`pos, this`times, repr, saver
      ensures left <= budget && old(times) <= times
      ensures Valid() && fresh(repr - old(repr)) && UnderWay(repeats)
      ensures saver.committed == old(saver.committed) && saver.lost == old(saver.lost)
    {
      left := budget;
      var numRecords := 0;
      while left > 0 && numRecords < limit
        invariant left <= budget && old(times) <= times
        invariant Valid() && fresh(repr - old(repr)) && UnderWay(repeats)
        invariant saver.committed == old(saver.committed) && saver.lost == old(saver.lost)
        decreases left
      {
        left := left - 1;
        var r := NextRecord(repeats);
        if r.None? {
          continue;
        }
        if r.value == SqlError {
          break;
        }
        numRecords := numRecords + 1;
      }
    }

    /** Reads one record, if there is one yet, and processes it unless it cannot be decoded. */
    method NextRecord(ghost repeats: multiset<Row>) returns (r: Option<Status>)
      requires Valid() && UnderWay(repeats)
      modifies this`servers, this`repr, this`pos, this`times, repr, saver
      ensures old(times) <= times
      ensures Valid() && fresh(repr - old(repr)) && UnderWay(repeats)
      ensures saver.committed == old(saver.committed) && saver.lost == old(saver.lost)
    {
      var available: bool := *;
      if !available || pos == |log| {
        return None;
      }
      if log[pos].Garbled? {
        StepOver(0);
        return None;
      }
      ghost var now;
      var status;
      status, now := ProcessRecord(log[pos].event, repeats);
      StepOver(now);
      r := Some(status);
    }

    /** The record at the position is done, at this time. */
    method StepOver(ghost now: int)
      requires Valid()
      modifies this`pos, this`times
      ensures Valid() && State() == old(State())
      ensures pos == old(pos) + 1 && times == old(times) + [now]
    {
      pos, times := pos + 1, times + [now];
    }

    method ProcessRecord(ev: Event, ghost repeats: multiset<Row>) returns (r: Status, ghost at: int)
      requires Valid() && UnderWay(repeats) && pos < |log| && log[pos] == Stat(ev)
      modifies this`servers, this`repr, repr, saver
      ensures Valid() && fresh(repr - old(repr))
      ensures saver.committed == old(saver.committed) && saver.lost == old(saver.lost)
      ensures Advanced(log, times + [at], State(), saver.State(), repeats, matches)
    {
      ghost var mem, db := State(), saver.State();
      var now: int := *;
      at := now;
      r := AddStat(ev, now);
      AdvancedOne(log, times, mem, db, repeats, matches, ev, now, r, State(), saver.State());
    }

    /** The batch between the checkpoint and the position. */
    ghost function Unsaved(): Batch
      reads this`saved, this`times
    {
      Batch(|saved|, times)
    }

    /** The rows of that batch are committed and will be written once more. */
    ghost predicate WillRepeat(repeats: multiset<Row>)
      reads this`checkpoint, this`saved, this`times, saver`committed
    {
      && saved <= times && |times| <= |log| && |saved| == checkpoint.pos
      && Transparent(repeats + BatchRows(log, Unsaved(), matches))
    }

    /** Writes the checkpoint after a commit out of the saver state `db`. */
    method Checkpointed(ghost db: SaverState, ghost repeats: multiset<Row>) returns (ok: bool)
      requires Valid() && saved <= times && |times| == pos && db.inTx && saver.committed == db.committed + db.tx
      requires Advanced(log, times, State(), db, repeats, matches)
      requires OnDisk(log, checkpoint, saved, db.committed, repeats, matches)
      modifies this`checkpoint, this`saved
      ensures Valid() && State() == old(State())
      ensures ok ==> Transparent(repeats) && saved == times
      ensures !ok ==> checkpoint == old(checkpoint) && saved == old(saved) && WillRepeat(repeats)
    {
      ghost var mem, before := State(), checkpoint;
      ok := Save();
      assert State() == mem;
      if ok {
        saved := times;
        CommitSaved(log, times, mem, db, checkpoint, repeats, matches);
      } else {
        CommitUnsaved(log, saved, times, mem, db, before, repeats, matches);
      }
    }

    /** The state of the disk when a round ends like this. `lost`: its commit was carried out unknown to the program. */
    ghost predicate Ended(f: Finished, lost: bool, repeats: multiset<Row>)
      requires Valid()
      reads this`pos, this`times, this`checkpoint, this`saved, this`servers, this`repr, repr, saver`committed
    {
      if f == NotSaved || lost then WillRepeat(repeats)
      else Transparent(repeats) && (f == Saved ==> InStep() && saved == times)
    }

    /** Ends the transaction and, when it committed, writes the checkpoint. */
    method Finish(ghost repeats: multiset<Row>) returns (f: Finished)
      requires Valid() && Transparent(repeats) && UnderWay(repeats) && saved <= times
      modifies this`checkpoint, this`saved, saver
      ensures Valid() && old(saved) <= saved && f != Killed
      ensures saver.lost == old(saver.lost) || (saver.lost == old(saver.lost) + 1 && f == RolledBack)
      ensures Ended(f, saver.lost > old(saver.lost), repeats)
      ensures f != Saved ==> checkpoint == old(checkpoint) && saved == old(saved)
    {
      ghost var db, mem := saver.State(), State();
      var ended := saver.EndTransaction();
      assert State() == mem;
      if ended == NoTransaction {
        return NotInTransaction;
      }
      if ended == CommitFailed {
        AfterFailure(db, repeats);
        return RolledBack;
      }
      var ok := Checkpointed(db, repeats);
      f := if ok then Saved else NotSaved;
    }

    /** A commit failed, out of the saver state `db`. */
    method AfterFailure(ghost db: SaverState, ghost repeats: multiset<Row>)
      requires Valid() && saved <= times && |times| == pos && db.inTx
      requires Advanced(log, times, State(), db, repeats, matches)
      requires OnDisk(log, checkpoint, saved, db.committed, repeats, matches)
      requires saver.committed == if saver.lost > db.lost then db.committed + db.tx else db.committed
      modifies saver
      ensures Valid() && saver.lost == old(saver.lost)
      ensures Ended(RolledBack, saver.lost > db.lost, repeats)
    {
      if saver.lost > db.lost {
        CommitUnsaved(log, saved, times, State(), db, checkpoint, repeats, matches);
      }
      saver.ClearConnection();
    }

    /** Goes back to the checkpoint when rolling back, and opens a transaction. */
    method BeginRound(rollback: bool, ghost repeats: multiset<Row>) returns (begun: bool)
      requires Valid() && Transparent(repeats)
      requires !rollback ==> InStep() && times == saved
      modifies this`servers, this`repr, this`pos, this`times, repr, saver
      ensures Valid() && fresh(repr - old(repr)) && Transparent(repeats) && saver.lost == old(saver.lost)
      ensures begun ==> UnderWay(repeats) && times == saved
    {
      if rollback {
        Load(repeats);
      }
      begun := OpenTransaction(repeats);
    }

    method OpenTransaction(ghost repeats: multiset<Row>) returns (begun: bool)
      requires Valid() && Transparent(repeats) && InStep() && times == saved
      modifies saver
      ensures Valid() && Transparent(repeats) && saver.lost == old(saver.lost)
      ensures begun ==> UnderWay(repeats)
    {
      ghost var mem := State();
      begun := saver.BeginTransaction();
      if begun {
        TransactionStarts(log, times, mem, saver.State(), checkpoint, repeats, matches);
      }
      assert State() == mem;
    }

    /** One pass of the main loop, once connected: load if rolling back, one transaction, checkpoint. The
        process may be killed inside the transaction. */
    method Round(budget: nat, transactionRecords: nat, rollback: bool, ghost repeats: multiset<Row>)
      returns (left: nat, f: Finished)
      requires Valid() && Transparent(repeats)
      requires !rollback ==> InStep() && times == saved
      modifies this`servers, this`repr, this`pos, this`times, this`checkpoint, this`saved, repr, saver
      ensures left <= budget
      ensures Valid() && fresh(repr - old(repr)) && old(saved) <= saved
      ensures saver.lost == old(saver.lost) || (saver.lost == old(saver.lost) + 1 && f == RolledBack)
      ensures Ended(f, saver.lost > old(saver.lost), repeats)
    {
      var begun := BeginRound(rollback, repeats);
      if !begun {
        return budget, RolledBack;
      }
      left := ProcessRecords(budget, transactionRecords, repeats);
      var killed: bool := *;
      if killed {
        return left, Killed;
      }
      f := Finish(repeats);
    }

    /** A life so far: the batches committed without a checkpoint and the state of the disk. */
    ghost predicate Going(exit: Exit, batches: seq<Batch>, first: seq<int>, repeats: multiset<Row>)
      reads this`checkpoint, this`saved, saver`committed
    {
      && AreBatches(log, batches) && Lived(Life(exit, batches), first, saved)
      && Transparent(repeats + BatchSum(log, batches, matches))
    }

    /** One round, and the batch it may have committed without a checkpoint. */
    method CountedRound(budget: nat, transactionRecords: nat, rollback: bool, ghost batches: seq<Batch>,
                        ghost first: seq<int>, ghost repeats: multiset<Row>)
      returns (left: nat, f: Finished, ghost more: seq<Batch>)
      requires Valid() && Going(Stopped, batches, first, repeats)
      requires !rollback ==> InStep() && times == saved
      modifies this`servers, this`repr, this`pos, this`times, this`checkpoint, this`saved, repr, saver
      ensures left <= budget && Valid() && fresh(repr - old(repr))
      ensures Going(if f == NotSaved then DiedBeforeSave else Stopped, more, first, repeats)
      ensures |more| == |batches| + saver.lost - old(saver.lost) + if f == NotSaved then 1 else 0
      ensures f == Saved ==> InStep() && times == saved
    {
      ghost var lost, before := saver.lost, saved;
      left, f := Round(budget, transactionRecords, rollback, repeats + BatchSum(log, batches, matches));
      more := batches;
      if f == NotSaved || saver.lost > lost {
        BatchAdded(log, batches, first, saved, times, repeats, matches);
        more := batches + [Unsaved()];
      }
    }

    /** The main loop. `exits` polls of the exit event answer no before it fires; every outcome of
        the SQL server, of reading and of the clock is possible. Since the loop can be stopped at
        any of its heads, what is ensured of the exit holds at every one of them. `batches` are the
        batches that were committed without a checkpoint. */
    method Run(exits: nat, transactionRecords: nat, ghost repeats: multiset<Row>)
      returns (exit: Exit, ghost batches: seq<Batch>)
      requires Valid() && Transparent(repeats)
      modifies this`servers, this`repr, this`pos, this`times, this`checkpoint, this`saved, repr, saver
      ensures Going(exit, batches, old(saved), repeats)
      ensures |batches| == saver.lost - old(saver.lost) + if exit == DiedBeforeSave then 1 else 0
    {
      batches := [];
      BatchSumNone(log, repeats, matches);
      var budget, rollback := exits, true;
      while budget > 0
        invariant Valid() && fresh(repr - old(repr))
        invariant Going(Stopped, batches, old(saved), repeats)
        invariant |batches| == saver.lost - old(saver.lost)
        invariant !rollback ==> InStep() && times == saved
        decreases budget
      {
        budget := Connect(budget - 1);
        if budget == 0 {
          break;
        }
        var finished: Finished;
        budget, finished, batches := CountedRound(budget, transactionRecords, rollback, batches, old(saved), repeats);
        if finished == NotInTransaction {
          return AbortedInTransaction, batches;
        }
        if finished == Killed {
          return KilledInTransaction, batches;
        }
        if finished == NotSaved {
          return DiedBeforeSave, batches;
        }
        rollback := finished != Saved;
      }
      exit := Stopped;
    }

    /** Tries to connect until it works or the exit event fires. */
    method Connect(budget: nat) returns (left: nat)
      modifies saver
      ensures left <= budget && saver.committed == old(saver.committed) && saver.lost == old(saver.lost)
    {
      left := budget;
      while !saver.connected && left > 0
        invariant left <= budget && saver.committed == old(saver.committed) && saver.lost == old(saver.lost)
      {
        var _ := saver.InitializeConnection();
        left := left - 1;
      }
    }
  }

  predicate AreBatches(log: seq<Record>, batches: seq<Batch>) {
    forall i :: 0 <= i < |batches| ==> IsBatch(log, batches[i])
  }

  function BatchSum(log: seq<Record>, batches: seq<Batch>, matches: string -> bool): multiset<Row>
    requires AreBatches(log, batches)
  {
    if batches == [] then multiset{}
    else BatchSum(log, batches[..|batches| - 1], matches) + BatchRows(log, batches[|batches| - 1], matches)
  }

  lemma {:induction false} BatchSumNone(log: seq<Record>, repeats: multiset<Row>, matches: string -> bool)
    ensures repeats + BatchSum(log, [], matches) == repeats
  {
  }

  /** How one process ended, and the batches it committed without a checkpoint. */
  datatype Life = Life(exit: Exit, batches: seq<Batch>)

  /** The batch starts at a position between the two checkpoints, from the run that they are of. */
  predicate StartsBetween(b: Batch, before: seq<int>, after: seq<int>) {
    |before| <= b.from <= |after| && b.from <= |b.times| && b.times[..b.from] == after[..b.from]
  }

  /** A process that started with the checkpoint of the run at `before` left that of the run at `after`: nothing
      that was saved is revised, its batches start at what was saved by then, and if it died before saving,
      the last one starts at its last checkpoint. */
  ghost predicate Lived(life: Life, before: seq<int>, after: seq<int>) {
    && before <= after
    && (forall i :: 0 <= i < |life.batches| ==> StartsBetween(life.batches[i], before, after))
    && (life.exit == DiedBeforeSave ==>
          life.batches != [] && life.batches[|life.batches| - 1].from == |after|)
  }

  /** One more batch is committed without a checkpoint. */
  lemma {:induction false} BatchAdded(log: seq<Record>, batches: seq<Batch>, first: seq<int>, saved: seq<int>,
                                      times: seq<int>, repeats: multiset<Row>, matches: string -> bool)
    requires AreBatches(log, batches) && Lived(Life(Stopped, batches), first, saved)
    requires saved <= times && |times| <= |log|
    ensures var b := Batch(|saved|, times);
            && AreBatches(log, batches + [b]) && Lived(Life(DiedBeforeSave, batches + [b]), first, saved)
            && Lived(Life(Stopped, batches + [b]), first, saved)
            && repeats + BatchSum(log, batches + [b], matches)
               == repeats + BatchSum(log, batches, matches) + BatchRows(log, b, matches)
  {
    var b := Batch(|saved|, times);
    assert times[..|saved|] == saved == saved[..|saved|];
    assert StartsBetween(b, first, saved);
  }

  predicate AreLives(log: seq<Record>, lives: seq<Life>) {
    forall i :: 0 <= i < |lives| ==> AreBatches(log, lives[i].batches)
  }

  /** The rows written twice: one extra copy of every batch committed without a checkpoint. */
  function Repeats(log: seq<Record>, lives: seq<Life>, matches: string -> bool): multiset<Row>
    requires AreLives(log, lives)
  {
    if lives == [] then multiset{}
    else Repeats(log, lives[..|lives| - 1], matches) + BatchSum(log, lives[|lives| - 1].batches, matches)
  }

  /** How many such batches there are, and how many processes died before saving. */
  function Copies(lives: seq<Life>): nat {
    if lives == [] then 0 else Copies(lives[..|lives| - 1]) + |lives[|lives| - 1].batches|
  }

  function Deaths(lives: seq<Life>): nat {
    if lives == [] then 0
    else Deaths(lives[..|lives| - 1]) + if lives[|lives| - 1].exit == DiedBeforeSave then 1 else 0
  }

  /** The life of one process: what it leaves on disk, and the batches it committed without a checkpoint. */
  method Live(log: seq<Record>, matches: string -> bool, saver: Saver, initial: Checkpoint, exits: nat,
              transactionRecords: nat, ghost before: seq<int>, ghost lives: seq<Life>)
    returns (checkpoint: Checkpoint, exit: Exit, ghost after: seq<int>, ghost batches: seq<Batch>)
    requires AreLives(log, lives)
    requires OnDisk(log, initial, before, saver.committed, Repeats(log, lives, matches), matches)
    modifies saver
    ensures Lived(Life(exit, batches), before, after) && AreLives(log, lives + [Life(exit, batches)])
    ensures |batches| == saver.lost - old(saver.lost) + if exit == DiedBeforeSave then 1 else 0
    ensures OnDisk(log, checkpoint, after, saver.committed,
                   Repeats(log, lives + [Life(exit, batches)], matches), matches)
  {
    saver.ClearConnection();
    var process := new StatsPostProcessor(log, matches, saver, initial, before);
    exit, batches := process.Run(exits, transactionRecords, Repeats(log, lives, matches));
    checkpoint, after := process.checkpoint, process.saved;
    assert (lives + [Life(exit, batches)])[..|lives|] == lives;
  }

  /** `saved[i]` are the times of the checkpoint that process `i` started with. */
  ghost predicate History(log: seq<Record>, lives: seq<Life>, saved: seq<seq<int>>) {
    && |saved| == |lives| + 1 && AreLives(log, lives)
    && forall i :: 0 <= i < |lives| ==> Lived(lives[i], saved[i], saved[i + 1])
  }

  /** An operator restarting the process `n` times, whatever ended it. Over the whole history the database
      holds the rows of one uninterrupted run up to the last checkpoint, plus one extra copy of a batch for
      every process that died between a commit and its checkpoint and every commit whose answer was lost,
      starting at what the process had saved by then. `exits[i]` says how process `i` ended. */
  method Supervise(log: seq<Record>, matches: string -> bool, saver: Saver, initial: Checkpoint, n: nat,
                   polls: nat -> nat, transactionRecords: nat -> nat, ghost times: seq<int>)
    returns (checkpoint: Checkpoint, exits: seq<Exit>, ghost lives: seq<Life>, ghost saved: seq<seq<int>>)
    requires OnDisk(log, initial, times, saver.committed, multiset{}, matches)
    modifies saver
    ensures |exits| == |lives| == n && forall i :: 0 <= i < n ==> lives[i].exit == exits[i]
    ensures History(log, lives, saved) && saved[0] == times
    ensures Copies(lives) == Deaths(lives) + saver.lost - old(saver.lost)
    ensures OnDisk(log, checkpoint, saved[n], saver.committed, Repeats(log, lives, matches), matches)
  {
    checkpoint, exits, lives, saved := initial, [], [], [times];
    for life := 0 to n
      invariant |exits| == |lives| == life && forall i :: 0 <= i < life ==> lives[i].exit == exits[i]
      invariant History(log, lives, saved) && saved[0] == times
      invariant Copies(lives) == Deaths(lives) + saver.lost - old(saver.lost)
      invariant OnDisk(log, checkpoint, saved[life], saver.committed, Repeats(log, lives, matches), matches)
    {
      var exit;
      ghost var after, batches;
      checkpoint, exit, after, batches :=
        Live(log, matches, saver, checkpoint, polls(life), transactionRecords(life), saved[life], lives);
      HistoryOn(log, lives, saved, Life(exit, batches), after);
      exits, lives, saved := exits + [exit], lives + [Life(exit, batches)], saved + [after];
    }
  }

  lemma {:induction false} HistoryOn(log: seq<Record>, lives: seq<Life>, saved: seq<seq<int>>, life: Life,
                                     after: seq<int>)
    requires History(log, lives, saved) && AreLives(log, lives + [life]) && Lived(life, saved[|lives|], after)
    ensures History(log, lives + [life], saved + [after])
  {
    forall i | 0 <= i < |lives + [life]|
      ensures Lived((lives + [life])[i], (saved + [after])[i], (saved + [after])[i + 1])
    {
      if i < |lives| { assert Lived(lives[i], saved[i], saved[i + 1]); }
    }
  }

  lemma {:induction false} SumEmptyExactly(a: multiset<Row>, b: multiset<Row>)
    ensures a + b == multiset{} <==> a == multiset{} && b == multiset{}
  {
    assert a <= a + b && b <= a + b;
  }

  /** No batch of the process had rows. */
  predicate NoRows(log: seq<Record>, batches: seq<Batch>, matches: string -> bool)
    requires AreBatches(log, batches)
  {
    batches == [] || (NoRows(log, batches[..|batches| - 1], matches)
                      && BatchRows(log, batches[|batches| - 1], matches) == multiset{})
  }

  predicate NoRowsInAny(log: seq<Record>, lives: seq<Life>, matches: string -> bool)
    requires AreLives(log, lives)
  {
    lives == [] || (NoRowsInAny(log, lives[..|lives| - 1], matches) && NoRows(log, lives[|lives| - 1].batches, matches))
  }

  lemma {:induction false} BatchSumEmptyExactly(log: seq<Record>, batches: seq<Batch>, matches: string -> bool)
    requires AreBatches(log, batches)
    ensures BatchSum(log, batches, matches) == multiset{} <==> NoRows(log, batches, matches)
  {
    if batches != [] {
      var init := batches[..|batches| - 1];
      BatchSumEmptyExactly(log, init, matches);
      SumEmptyExactly(BatchSum(log, init, matches), BatchRows(log, batches[|batches| - 1], matches));
    }
  }

  /** Nothing is written twice exactly when no batch committed without a checkpoint had rows. */
  lemma {:induction false} NoRepeatsExactly(log: seq<Record>, lives: seq<Life>, matches: string -> bool)
    requires AreLives(log, lives)
    ensures Repeats(log, lives, matches) == multiset{} <==> NoRowsInAny(log, lives, matches)
  {
    if lives != [] {
      var init, last := lives[..|lives| - 1], lives[|lives| - 1];
      NoRepeatsExactly(log, init, matches);
      BatchSumEmptyExactly(log, last.batches, matches);
      SumEmptyExactly(Repeats(log, init, matches), BatchSum(log, last.batches, matches));
    }
  }

  /** For a log whose records are replayable where they are met, the clock has no part in it. */
  lemma {:induction false} OnDiskWithoutClock(log: seq<Record>, cp: Checkpoint, times: seq<int>,
                                              committed: multiset<Row>,
                                              repeats: multiset<Row>, matches: string -> bool)
    requires OnDisk(log, cp, times, committed, repeats, matches)
    requires forall i :: 0 <= i < cp.pos ==> ReplayableAt(log, i, matches)
    ensures OnDisk(log, cp, Zeros(cp.pos), committed, repeats, matches)
  {
    ClockIsFree(log, times, matches);
  }

  /** The checkpoint a new installation starts from. */
  lemma {:induction false} InitialCheckpoint(log: seq<Record>, matches: string -> bool)
    ensures OnDisk(log, Checkpoint(0, []), [], multiset{}, multiset{}, matches)
  {
  }

  lemma {:induction false} CoreTwice(st: Servers)
    ensures Core(Core(st)) == Core(st)
  {
  }

  lemma {:induction false} ListedPending(st: Servers, id: string, a: seq<Event>, b: seq<Event>, c: seq<Event>)
    requires id in st
    requires Lists(a, Conn, id, st[id].instance, st[id].conns, st[id].conns.Keys)
    requires Lists(b, Stream, id, st[id].instance, st[id].streams, st[id].streams.Keys)
    requires Lists(c, Media, id, st[id].instance, st[id].medias, st[id].medias.Keys)
    ensures forall i :: 0 <= i < |a + b + c| ==> Pending((a + b + c)[i], st)
    ensures forall kind, key :: HasBegin(st, id, kind, key) ==> EventFor(st, id, kind, key) in a + b + c
  {
    forall i | 0 <= i < |a + b + c| ensures Pending((a + b + c)[i], st) {
      var ev := (a + b + c)[i];
      var kind := if i < |a| then Conn else if i < |a| + |b| then Stream else Media;
      assert IsListedIn(ev, kind, id, st[id].instance, MapOf(st[id], kind));
      var key :| IsListed(ev, kind, id, st[id].instance, MapOf(st[id], kind), key);
      assert HasBegin(st, id, kind, key) && ev == EventFor(st, ev.serverId, kind, key);
    }
  }

  predicate IsListed(ev: Event, kind: Kind, id: string, instance: int, m: map<string, Begin>, key: string) {
    key in m && ev == BeginEvent(kind, id, instance, m[key])
  }

  ghost predicate IsListedIn(ev: Event, kind: Kind, id: string, instance: int, m: map<string, Begin>) {
    exists key :: IsListed(ev, kind, id, instance, m, key)
  }

  /** `evs` holds the events of the begins under `keys` and nothing else. */
  ghost predicate Lists(evs: seq<Event>, kind: Kind, id: string, instance: int, m: map<string, Begin>,
                        keys: set<string>)
  {
    && (forall i :: 0 <= i < |evs| ==> IsListedIn(evs[i], kind, id, instance, m))
    && (forall key :: key in keys && key in m ==> BeginEvent(kind, id, instance, m[key]) in evs)
  }

  lemma {:induction false} ListsOneMore(evs: seq<Event>, kind: Kind, id: string, instance: int, m: map<string, Begin>,
                                        keys: set<string>, k: string)
    requires Lists(evs, kind, id, instance, m, keys) && k in m
    ensures Lists(evs + [BeginEvent(kind, id, instance, m[k])], kind, id, instance, m, keys + {k})
  {
    var more := evs + [BeginEvent(kind, id, instance, m[k])];
    assert IsListed(more[|evs|], kind, id, instance, m, k);
    forall key | key in keys + {k} && key in m ensures BeginEvent(kind, id, instance, m[key]) in more {
      if key != k { assert BeginEvent(kind, id, instance, m[key]) in evs; }
    }
  }
}
