/**
 What a log of statistics says of itself: which begins are pending after it and which rows its records
 are to write, by positions in the log.
 */
module StatsLaw {
  import opened Options
  import opened StatsModel

  // ---------- what a record says ----------

  /** The event opens this begin. Of several parts the connection's begin counts first, then the stream's. */
  predicate Opens(ev: Event, kind: Kind, b: Begin) {
    match kind
    case Conn => ev.connBegin == Some(b)
    case Stream => ev.connBegin.None? && ev.streamBegin == Some(b)
    case Media => ev.connBegin.None? && ev.streamBegin.None? && ev.mediaBegin == Some(b)
  }

  /** The event ends the begin with the id of this end. */
  predicate Closes(ev: Event, kind: Kind, e: End) {
    && ev.connBegin.None? && ev.streamBegin.None? && ev.mediaBegin.None?
    && match kind
       case Conn => ev.connEnd == Some(e)
       case Stream => ev.connEnd.None? && ev.streamEnd == Some(e)
       case Media => ev.connEnd.None? && ev.streamEnd.None? && ev.mediaEnd == Some(e)
  }

  predicate OpensId(ev: Event, kind: Kind, id: string) {
    match kind
    case Conn => ev.connBegin.Some? && ev.connBegin.value.id == id
    case Stream => ev.connBegin.None? && ev.streamBegin.Some? && ev.streamBegin.value.id == id
    case Media => ev.connBegin.None? && ev.streamBegin.None? && ev.mediaBegin.Some? && ev.mediaBegin.value.id == id
  }

  predicate ClosesId(ev: Event, kind: Kind, id: string) {
    && ev.connBegin.None? && ev.streamBegin.None? && ev.mediaBegin.None?
    && match kind
       case Conn => ev.connEnd.Some? && ev.connEnd.value.id == id
       case Stream => ev.connEnd.None? && ev.streamEnd.Some? && ev.streamEnd.value.id == id
       case Media => ev.connEnd.None? && ev.streamEnd.None? && ev.mediaEnd.Some? && ev.mediaEnd.value.id == id
  }

  /** The record comes from the server. */
  predicate From(log: seq<Record>, j: nat, server: string)
    requires j < |log|
  {
    log[j].Stat? && log[j].event.serverId == server
  }

  /** Record `j` of the server, of instance `instance`, leaves alone what is open under this id. */
  predicate Spares(ev: Event, instance: int, kind: Kind, id: string) {
    ev.instance == instance && !OpensId(ev, kind, id) && !ClosesId(ev, kind, id)
  }

  /** The begin of record `i` is still open before record `k`: since then the server has not come back as
      another instance, and has neither ended it nor begun another under its id. */
  ghost predicate IsOpen(log: seq<Record>, i: nat, k: nat, server: string, kind: Kind, b: Begin) {
    && i < k <= |log| && From(log, i, server) && Opens(log[i].event, kind, b)
    && forall j :: i < j < k && From(log, j, server) ==> Spares(log[j].event, log[i].event.instance, kind, b.id)
  }

  ghost predicate SomeOpen(log: seq<Record>, k: nat, server: string, kind: Kind, b: Begin, instance: int) {
    exists i: nat :: IsOpen(log, i, k, server, kind, b) && log[i].event.instance == instance
  }

  /** The begin is pending in `st`, filed under its id. */
  predicate IsPending(st: Servers, server: string, kind: Kind, b: Begin, instance: int) {
    HasBegin(st, server, kind, b.id) && MapOf(st[server], kind)[b.id] == b && st[server].instance == instance
  }

  // ---------- one event ----------

  /** The begin is filed under its id. */
  predicate IsFiled(s: Server, kind: Kind, b: Begin) {
    b.id in MapOf(s, kind) && MapOf(s, kind)[b.id] == b
  }

  lemma {:induction false} ConnAfter(server: string, s: Server, ev: Event, now: int, matches: string -> bool,
                                     b: Begin)
    ensures IsFiled(AddToServer(server, s, ev, now, matches).1, Conn, b)
            <==> Opens(ev, Conn, b) || (IsFiled(s, Conn, b) && Spares(ev, s.instance, Conn, b.id))
  {
  }

  lemma {:induction false} StreamAfter(server: string, s: Server, ev: Event, now: int, matches: string -> bool,
                                       b: Begin)
    ensures IsFiled(AddToServer(server, s, ev, now, matches).1, Stream, b)
            <==> Opens(ev, Stream, b) || (IsFiled(s, Stream, b) && Spares(ev, s.instance, Stream, b.id))
  {
  }

  lemma {:induction false} MediaAfter(server: string, s: Server, ev: Event, now: int, matches: string -> bool,
                                      b: Begin)
    ensures IsFiled(AddToServer(server, s, ev, now, matches).1, Media, b)
            <==> Opens(ev, Media, b) || (IsFiled(s, Media, b) && Spares(ev, s.instance, Media, b.id))
  {
    var s' := AddToServer(server, s, ev, now, matches).1;
    var before := if ev.instance == s.instance then s.medias else map[];
    if ev.connBegin.Some? || ev.streamBegin.Some? {
      assert s'.medias == before;
    } else if ev.mediaBegin.Some? {
      assert s'.medias == before[ev.mediaBegin.value.id := ev.mediaBegin.value];
    } else if ev.connEnd.Some? || ev.streamEnd.Some? || ev.mediaEnd.None? {
      assert s'.medias == before;
    } else {
      assert s'.medias == if ev.mediaEnd.value.id in before then before - {ev.mediaEnd.value.id} else before;
    }
  }

  lemma {:induction false} ServerAfter(server: string, s: Server, ev: Event, now: int, matches: string -> bool,
                                       kind: Kind, b: Begin)
    ensures AddToServer(server, s, ev, now, matches).1.instance == ev.instance
    ensures IsFiled(AddToServer(server, s, ev, now, matches).1, kind, b)
            <==> Opens(ev, kind, b) || (IsFiled(s, kind, b) && Spares(ev, s.instance, kind, b.id))
  {
    match kind
    case Conn => ConnAfter(server, s, ev, now, matches, b);
    case Stream => StreamAfter(server, s, ev, now, matches, b);
    case Media => MediaAfter(server, s, ev, now, matches, b);
  }

  /** What is pending after an event: what it opens, and what it spares of what was. */
  lemma {:induction false} AfterEvent(st: Servers, ev: Event, now: int, matches: string -> bool, kind: Kind, b: Begin,
                                      instance: int)
    ensures IsPending(AddStat(st, ev, now, matches).1, ev.serverId, kind, b, instance)
            <==> instance == ev.instance
                 && (Opens(ev, kind, b)
                     || (IsPending(st, ev.serverId, kind, b, instance) && Spares(ev, instance, kind, b.id)))
  {
    var s, s' := ServerFor(st, ev), AddToServer(ev.serverId, ServerFor(st, ev), ev, now, matches).1;
    ServerAfter(ev.serverId, s, ev, now, matches, kind, b);
    if IsFiled(s', kind, b) { assert MapOf(s', kind) != map[]; }
  }

  lemma {:induction false} OtherServerStays(st: Servers, ev: Event, now: int, matches: string -> bool, server: string,
                                            kind: Kind, b: Begin, instance: int)
    requires server != ev.serverId
    ensures IsPending(AddStat(st, ev, now, matches).1, server, kind, b, instance)
            <==> IsPending(st, server, kind, b, instance)
  {
  }

  // ---------- what is pending ----------

  lemma {:induction false} OpenLater(log: seq<Record>, i: nat, k: nat, server: string, kind: Kind, b: Begin)
    requires i < k < |log|
    ensures IsOpen(log, i, k + 1, server, kind, b)
            <==> IsOpen(log, i, k, server, kind, b)
                 && (From(log, k, server) ==> Spares(log[k].event, log[i].event.instance, kind, b.id))
  {
  }

  lemma {:induction false} OpenOneMore(log: seq<Record>, k: nat, server: string, kind: Kind, b: Begin, instance: int)
    requires k < |log|
    ensures SomeOpen(log, k + 1, server, kind, b, instance)
            <==> if From(log, k, server) then
                   || (Opens(log[k].event, kind, b) && log[k].event.instance == instance)
                   || (SomeOpen(log, k, server, kind, b, instance) && Spares(log[k].event, instance, kind, b.id))
                 else SomeOpen(log, k, server, kind, b, instance)
  {
    if i: nat :| IsOpen(log, i, k + 1, server, kind, b) && log[i].event.instance == instance {
      if i < k { OpenLater(log, i, k, server, kind, b); }
    }
    if i: nat :| IsOpen(log, i, k, server, kind, b) && log[i].event.instance == instance {
      OpenLater(log, i, k, server, kind, b);
    }
    if From(log, k, server) && Opens(log[k].event, kind, b) {
      assert IsOpen(log, k, k + 1, server, kind, b);
    }
  }

  /** After any part of a log the pending begins are those still open in it, whatever the clock read. */
  lemma {:induction false} PendingExactly(log: seq<Record>, times: seq<int>, matches: string -> bool, server: string,
                                          kind: Kind, b: Begin, instance: int)
    requires |times| <= |log|
    ensures IsPending(Exec(log, times, matches).0, server, kind, b, instance)
            <==> SomeOpen(log, |times|, server, kind, b, instance)
  {
    if times != [] {
      var k := |times| - 1;
      var st := Exec(log, times[..k], matches).0;
      PendingExactly(log, times[..k], matches, server, kind, b, instance);
      OpenOneMore(log, k, server, kind, b, instance);
      if log[k].Stat? {
        var ev := log[k].event;
        assert Exec(log, times, matches).0 == AddStat(st, ev, times[k], matches).1;
        if ev.serverId == server {
          AfterEvent(st, ev, times[k], matches, kind, b, instance);
        } else {
          OtherServerStays(st, ev, times[k], matches, server, kind, b, instance);
        }
      }
    }
  }

  // ---------- which rows are written ----------

  function BeginStamp(b: Option<Begin>): seq<int> {
    match b case None => [] case Some(b) => [b.timestampMs]
  }

  function EndStamp(e: Option<End>): seq<int> {
    match e case None => [] case Some(e) => [e.timestampMs]
  }

  /** The times of the parts, connection before stream before media, and each begin before the end. */
  function Stamps(ev: Event): seq<int> {
    BeginStamp(ev.connBegin) + EndStamp(ev.connEnd) + BeginStamp(ev.streamBegin) + EndStamp(ev.streamEnd)
    + BeginStamp(ev.mediaBegin) + EndStamp(ev.mediaEnd)
  }

  /** The event is of the time of its first part, or of now if it has none. */
  function DateOf(ev: Event, now: int): int {
    (Stamps(ev) + [now])[0]
  }

  /** The event, met with `row.begin` pending, ends it: by a media end, or as that of another instance. */
  predicate Ends(ev: Event, now: int, row: Row) {
    && row.serverId == ev.serverId
    && if ev.instance == row.instance then Closes(ev, Media, row.end) && row.end.id == row.begin.id
       else row.end == End(row.begin.id, DateOf(ev, now), "SERVER CRASH")
  }

  /** Record `k` writes the row: it ends a media begin that is open, and whose content is recorded. */
  ghost predicate Writes(log: seq<Record>, k: nat, now: int, matches: string -> bool, row: Row)
    requires k < |log|
  {
    && log[k].Stat? && Ends(log[k].event, now, row) && matches(row.begin.contentId)
    && SomeOpen(log, k, log[k].event.serverId, Media, row.begin, row.instance)
  }

  lemma {:induction false} DateIs(ev: Event, now: int)
    ensures EventTs(ev, now) == DateOf(ev, now)
  {
  }

  lemma {:induction false} CrashRowsAre(server: string, s: Server, ts: int, matches: string -> bool, row: Row)
    requires KeyedMap(s.medias)
    ensures CrashRows(server, s, s.medias.Keys, ts, matches)[row]
            == if row.serverId == server && row.instance == s.instance && IsFiled(s, Media, row.begin)
                  && matches(row.begin.contentId) && row.end == End(row.begin.id, ts, "SERVER CRASH") then 1 else 0
  {
    if IsFiled(s, Media, row.begin) && matches(row.begin.contentId)
       && row == CrashRow(server, s.instance, row.begin, ts) {
      assert row.begin.id in s.medias.Keys;
    }
  }

  lemma {:induction false} ServerRows(server: string, s: Server, ev: Event, now: int, matches: string -> bool, row: Row)
    requires KeyedMap(s.medias) && ev.serverId == server
    ensures AddToServer(server, s, ev, now, matches).2[row]
            == if row.instance == s.instance && IsFiled(s, Media, row.begin) && matches(row.begin.contentId)
                  && Ends(ev, now, row) then 1 else 0
  {
    DateIs(ev, now);
    if ev.instance != s.instance {
      CrashRowsAre(server, s, EventTs(ev, now), matches, row);
    }
  }

  /** What an event writes, by what is pending. */
  lemma {:induction false} EventRows(st: Servers, ev: Event, now: int, matches: string -> bool, row: Row)
    requires KeyedServers(st)
    ensures AddStat(st, ev, now, matches).2[row]
            == if IsPending(st, ev.serverId, Media, row.begin, row.instance) && matches(row.begin.contentId)
                  && Ends(ev, now, row) then 1 else 0
  {
    ServerRows(ev.serverId, ServerFor(st, ev), ev, now, matches, row);
  }

  /** One more record writes a row once if it ends its begin, and no row otherwise. */
  lemma {:induction false} RowsExactly(log: seq<Record>, times: seq<int>, now: int, matches: string -> bool, row: Row)
    requires |times| < |log|
    ensures Exec(log, times + [now], matches).1[row]
            == Exec(log, times, matches).1[row] + if Writes(log, |times|, now, matches, row) then 1 else 0
  {
    var done, k := Exec(log, times, matches), |times|;
    ExecOne(log, times, now, matches);
    if log[k].Stat? {
      ExecKeyed(log, times, matches);
      EventRows(done.0, log[k].event, now, matches, row);
      PendingExactly(log, times, matches, log[k].event.serverId, Media, row.begin, row.instance);
    }
  }

  /** Whether the record writes the row. */
  ghost function Writing(log: seq<Record>, times: seq<int>, matches: string -> bool, row: Row): nat -> bool
    requires |times| <= |log|
  {
    (k: nat) => k < |times| && Writes(log, k, times[k], matches, row)
  }

  ghost function Below(n: nat, p: nat -> bool): set<nat> {
    set k: nat | k < n && p(k)
  }

  lemma {:induction false} BelowOneMore(n: nat, p: nat -> bool, q: nat -> bool)
    requires forall k: nat :: k < n ==> p(k) == q(k)
    ensures |Below(n + 1, q)| == |Below(n, p)| + if q(n) then 1 else 0
  {
    assert Below(n + 1, q) == Below(n, p) + if q(n) then {n} else {};
  }

  lemma {:induction false} SameWriting(log: seq<Record>, times: seq<int>, now: int, matches: string -> bool, row: Row,
                                       k: nat)
    requires k < |times| < |log|
    ensures Writing(log, times + [now], matches, row)(k) == Writing(log, times, matches, row)(k)
  {
    assert (times + [now])[k] == times[k];
  }

  /** A run has written each row as often as records of its log end the row's begin. */
  lemma {:induction false} RowsAreCounted(log: seq<Record>, times: seq<int>, matches: string -> bool, row: Row)
    requires |times| <= |log|
    ensures Exec(log, times, matches).1[row] == |Below(|times|, Writing(log, times, matches, row))|
  {
    if times == [] {
      assert Below(0, Writing(log, times, matches, row)) == {};
    } else {
      var init, now := times[..|times| - 1], times[|times| - 1];
      assert times == init + [now];
      RowsAreCounted(log, init, matches, row);
      RowsExactly(log, init, now, matches, row);
      forall k: nat | k < |init|
        ensures Writing(log, init, matches, row)(k) == Writing(log, times, matches, row)(k)
      {
        SameWriting(log, init, now, matches, row, k);
      }
      BelowOneMore(|init|, Writing(log, init, matches, row), Writing(log, times, matches, row));
    }
  }

  // ---------- a media's life ----------

  lemma {:induction false} OpenIsUnique(log: seq<Record>, k: nat, server: string, kind: Kind, b: Begin, instance: int,
                                        c: Begin, other: int)
    requires k <= |log| && SomeOpen(log, k, server, kind, b, instance) && SomeOpen(log, k, server, kind, c, other)
    ensures instance == other && (b.id == c.id ==> b == c)
  {
    PendingExactly(log, Zeros(k), _ => true, server, kind, b, instance);
    PendingExactly(log, Zeros(k), _ => true, server, kind, c, other);
  }

  /** The end of a media writes its row, once, if its content is recorded, and nothing else; then it is pending no
      more. */
  lemma {:induction false} MediaEndWritesRow(log: seq<Record>, times: seq<int>, now: int, matches: string -> bool,
                                             i: nat, server: string, b: Begin, e: End)
    requires |times| < |log| && IsOpen(log, i, |times|, server, Media, b) && From(log, |times|, server)
    requires log[|times|].event.instance == log[i].event.instance
    requires Closes(log[|times|].event, Media, e) && e.id == b.id
    ensures Exec(log, times + [now], matches).1
            == Exec(log, times, matches).1
               + if matches(b.contentId) then multiset{Row(server, log[i].event.instance, b, e)} else multiset{}
    ensures !HasBegin(Exec(log, times + [now], matches).0, server, Media, b.id)
  {
    var k, instance := |times|, log[i].event.instance;
    assert SomeOpen(log, k, server, Media, b, instance);
    forall row: Row
      ensures Writes(log, k, now, matches, row) <==> matches(b.contentId) && row == Row(server, instance, b, e)
    {
      if SomeOpen(log, k, server, Media, row.begin, row.instance) {
        OpenIsUnique(log, k, server, Media, b, instance, row.begin, row.instance);
      }
    }
    forall row: Row
      ensures Exec(log, times + [now], matches).1[row]
              == Exec(log, times, matches).1[row]
                 + if matches(b.contentId) && row == Row(server, instance, b, e) then 1 else 0
    {
      RowsExactly(log, times, now, matches, row);
    }
    NoLongerPending(log, times, now, matches, server, Media, b.id);
  }

  lemma {:induction false} NoLongerPending(log: seq<Record>, times: seq<int>, now: int, matches: string -> bool,
                                           server: string, kind: Kind, id: string)
    requires |times| < |log| && From(log, |times|, server) && ClosesId(log[|times|].event, kind, id)
    ensures !HasBegin(Exec(log, times + [now], matches).0, server, kind, id)
  {
    var st := Exec(log, times + [now], matches).0;
    if HasBegin(st, server, kind, id) {
      var b, instance := MapOf(st[server], kind)[id], st[server].instance;
      ExecKeyed(log, times + [now], matches);
      assert Keyed(st[server]);
      PendingExactly(log, times + [now], matches, server, kind, b, instance);
      OpenOneMore(log, |times|, server, kind, b, instance);
      assert false;
    }
  }

  /** A server that comes back as another instance: each recorded begin gets one crash row, of the date of that
      event, ... */
  lemma {:induction false} RestartWritesRows(log: seq<Record>, times: seq<int>, now: int, matches: string -> bool,
                                             server: string, b: Begin, instance: int)
    requires |times| < |log| && From(log, |times|, server) && log[|times|].event.instance != instance
    requires SomeOpen(log, |times|, server, Media, b, instance)
    ensures var row := Row(server, instance, b, End(b.id, DateOf(log[|times|].event, now), "SERVER CRASH"));
            Exec(log, times + [now], matches).1[row]
            == Exec(log, times, matches).1[row] + if matches(b.contentId) then 1 else 0
  {
    RowsExactly(log, times, now, matches,
                Row(server, instance, b, End(b.id, DateOf(log[|times|].event, now), "SERVER CRASH")));
  }

  /** ... and behind it nothing is pending but what the event opens. */
  lemma {:induction false} RestartEndsAll(log: seq<Record>, k: nat, server: string, kind: Kind, b: Begin, instance: int,
                                          c: Begin, other: int)
    requires k < |log| && From(log, k, server) && SomeOpen(log, k, server, Media, b, instance)
    requires log[k].event.instance != instance
    ensures SomeOpen(log, k + 1, server, kind, c, other)
            <==> Opens(log[k].event, kind, c) && log[k].event.instance == other
  {
    OpenOneMore(log, k, server, kind, c, other);
    if SomeOpen(log, k, server, kind, c, other) {
      SameInstance(log, k, server, kind, c, other, b, instance);
    }
  }

  lemma {:induction false} SameInstance(log: seq<Record>, k: nat, server: string, kind: Kind, b: Begin, instance: int,
                                        c: Begin, other: int)
    requires k <= |log| && SomeOpen(log, k, server, kind, b, instance) && SomeOpen(log, k, server, Media, c, other)
    ensures instance == other
  {
    PendingExactly(log, Zeros(k), _ => true, server, kind, b, instance);
    PendingExactly(log, Zeros(k), _ => true, server, Media, c, other);
  }

  /** An event succeeds exactly if it opens something, or ends something that is pending. */
  lemma {:induction false} SucceedsExactly(st: Servers, ev: Event, now: int, matches: string -> bool)
    ensures var r := AddStat(st, ev, now, matches).0;
            && r != SqlError
            && (r == Success <==>
                  || (exists kind, b :: Opens(ev, kind, b))
                  || (exists kind, e :: Closes(ev, kind, e) && HasBegin(st, ev.serverId, kind, e.id)
                                        && st[ev.serverId].instance == ev.instance))
  {
    if ev.connBegin.Some? {
      assert Opens(ev, Conn, ev.connBegin.value);
    } else if ev.streamBegin.Some? {
      assert Opens(ev, Stream, ev.streamBegin.value);
    } else if ev.mediaBegin.Some? {
      assert Opens(ev, Media, ev.mediaBegin.value);
    } else if ev.connEnd.Some? {
      assert Closes(ev, Conn, ev.connEnd.value);
    } else if ev.streamEnd.Some? {
      assert Closes(ev, Stream, ev.streamEnd.value);
    } else if ev.mediaEnd.Some? {
      assert Closes(ev, Media, ev.mediaEnd.value);
    }
  }

  /** After an event the server is known, as the event's instance, exactly if the event failed or something is
      pending there; and all other servers are as they were. */
  lemma {:induction false} KnownExactly(st: Servers, ev: Event, now: int, matches: string -> bool)
    ensures var (r, st', _) := AddStat(st, ev, now, matches);
            && (ev.serverId in st' <==> r != Success || exists kind, key :: HasBegin(st', ev.serverId, kind, key))
            && (ev.serverId in st' ==> st'[ev.serverId].instance == ev.instance)
            && forall id :: id != ev.serverId ==> (id in st' <==> id in st) && (id in st ==> st'[id] == st[id])
  {
    var st' := AddStat(st, ev, now, matches).1;
    if ev.serverId in st' { NonEmptyHasBegin(st', ev.serverId); }
  }
}
