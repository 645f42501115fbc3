/** The write-through session log (internal/session/sqlite.go, session.go): a pruned
    table of event rows behind the in-memory replay buffers.  The specification is
    the full log of envelopes ever appended to a session. */
module SessionStore {
  import opened Text
  import opened RingBuffers

  /** One session_events row of a sid; rows are kept in primary-key order. */
  datatype Row = Row(idx: int, entry: Entry)

  /** SELECT COALESCE(MAX(idx), -1) + 1 */
  function NextIdx(rows: seq<Row>): int
  {
    if rows == [] then 0 else rows[|rows| - 1].idx + 1
  }

  /** DELETE ... WHERE idx < cutoff */
  function DropBelow(rows: seq<Row>, cutoff: int): seq<Row>
  {
    if rows == [] then []
    else (if rows[0].idx < cutoff then [] else [rows[0]]) + DropBelow(rows[1..], cutoff)
  }

  /** appendRow's INSERT, at the next index. */
  function InsertRow(rows: seq<Row>, e: Entry): seq<Row> { rows + [Row(NextIdx(rows), e)] }

  /** appendRow's DELETE, down to the trailing 2*bufferSize window below the row at next. */
  function PruneRows(rows: seq<Row>, next: int, bufferSize: int): seq<Row>
  {
    var cutoff := next - 2 * bufferSize;
    if cutoff > 0 then DropBelow(rows, cutoff) else rows
  }

  function AppendRow(rows: seq<Row>, e: Entry, bufferSize: int): seq<Row>
  {
    PruneRows(InsertRow(rows, e), NextIdx(rows), bufferSize)
  }

  /** ORDER BY idx DESC LIMIT bufferSize, oldest first.  A negative LIMIT is no limit. */
  function Recent(rows: seq<Row>, bufferSize: int): seq<Row>
  {
    if bufferSize < 0 || |rows| <= bufferSize then rows else rows[|rows| - bufferSize..]
  }

  function Entries(rows: seq<Row>): seq<Entry>
  {
    seq(|rows|, i requires 0 <= i < |rows| => rows[i].entry)
  }

  /** rehydrate: push the recent rows into a new buffer. */
  function Rehydrated(rows: seq<Row>, bufferSize: int, maxBytes: int): seq<Entry>
  {
    Pushed(Entries(Recent(rows, bufferSize)), AtLeastOne(bufferSize), AtLeastOne(maxBytes))
  }

  /** The table after appending a whole log. */
  function TableOf(log: seq<Entry>, bufferSize: int): seq<Row>
  {
    if log == [] then [] else AppendRow(TableOf(log[..|log| - 1], bufferSize), log[|log| - 1], bufferSize)
  }

  // ---- What the table holds ----

  /** Rows lo..n of a log, each at its own index. */
  function Slice(log: seq<Entry>, lo: nat): (r: seq<Row>)
    requires lo <= |log|
    ensures |r| == |log| - lo
  {
    seq(|log| - lo, i requires 0 <= i < |log| - lo => Row(lo + i, log[lo + i]))
  }

  function Oldest(n: nat, bufferSize: nat): nat
  {
    if n - 1 - 2 * bufferSize > 0 then n - 1 - 2 * bufferSize else 0
  }

  lemma {:induction false} DropBelowSlice(log: seq<Entry>, lo: nat, cutoff: nat)
    requires lo <= |log| && cutoff <= |log|
    ensures DropBelow(Slice(log, lo), cutoff) == Slice(log, if lo < cutoff then cutoff else lo)
    decreases |log| - lo
  {
    if lo == |log| {
    } else {
      assert Slice(log, lo)[1..] == Slice(log, lo + 1);
      DropBelowSlice(log, lo + 1, cutoff);
      if lo >= cutoff {
        assert [Row(lo, log[lo])] + Slice(log, lo + 1) == Slice(log, lo);
      }
    }
  }

  lemma AppendToSlice(log: seq<Entry>, bufferSize: nat, lo: nat)
    requires log != [] && lo == Oldest(|log| - 1, bufferSize)
    ensures lo <= |log| - 1 && Oldest(|log|, bufferSize) <= |log|
    ensures AppendRow(Slice(log[..|log| - 1], lo), log[|log| - 1], bufferSize) == Slice(log, Oldest(|log|, bufferSize))
  {
    var n := |log| - 1;
    var rows := Slice(log[..n], lo);
    assert NextIdx(rows) == n;
    assert rows + [Row(n, log[n])] == Slice(log, lo);
    if n - 2 * bufferSize > 0 { DropBelowSlice(log, lo, n - 2 * bufferSize); }
  }

  /** With a non-negative buffer size the table is exactly the log's tail from Oldest on. */
  lemma {:induction false} TableIsTail(log: seq<Entry>, bufferSize: nat)
    ensures Oldest(|log|, bufferSize) <= |log|
    ensures TableOf(log, bufferSize) == Slice(log, Oldest(|log|, bufferSize))
  {
    if log == [] {
    } else {
      TableIsTail(log[..|log| - 1], bufferSize);
      AppendToSlice(log, bufferSize, Oldest(|log| - 1, bufferSize));
    }
  }

  /** With a negative buffer size every insert prunes its own row. */
  lemma {:induction false} NegativeSizeKeepsNothing(log: seq<Entry>, bufferSize: int)
    requires bufferSize < 0
    ensures TableOf(log, bufferSize) == []
  {
    if log == [] {
    } else {
      NegativeSizeKeepsNothing(log[..|log| - 1], bufferSize);
      var only := [Row(0, log[|log| - 1])];
      assert [] + only == only && only[1..] == [];
      assert DropBelow(only, 0 - 2 * bufferSize) == [];
    }
  }

  /** The rows are the end of the log, from no later than pruning would leave. */
  ghost predicate IsTail(rows: seq<Row>, log: seq<Entry>, bufferSize: nat)
  {
    && |rows| <= |log| && |log| - |rows| <= Oldest(|log|, bufferSize)
    && rows == Slice(log, |log| - |rows|)
  }

  /** What rehydration reads of such a table is a suffix of the log: all of it, or as many
      entries as the buffer holds. */
  lemma RecentOfTail(rows: seq<Row>, log: seq<Entry>, bufferSize: int)
    requires bufferSize >= 1 && IsTail(rows, log, bufferSize)
    ensures IsRecent(Entries(Recent(rows, bufferSize)), log, bufferSize)
  {
    var recent := Recent(rows, bufferSize);
    var entries, tail := Entries(recent), log[|log| - |recent|..];
    forall i | 0 <= i < |recent| ensures entries[i] == tail[i] {
      assert recent[i] == rows[|rows| - |recent| + i];
    }
    assert entries == tail;
  }

  ghost predicate IsRecent(recent: seq<Entry>, log: seq<Entry>, bufferSize: int)
  {
    && |recent| <= |log| && recent == log[|log| - |recent|..]
    && (|recent| == |log| || |recent| == bufferSize)
  }

  /** Pruning never deletes a row rehydration needs. */
  lemma RecentSurvivesPruning(log: seq<Entry>, bufferSize: int)
    requires bufferSize >= 1
    ensures IsTail(TableOf(log, bufferSize), log, bufferSize)
    ensures IsRecent(Entries(Recent(TableOf(log, bufferSize), bufferSize)), log, bufferSize)
  {
    TableIsTail(log, bufferSize);
    RecentOfTail(TableOf(log, bufferSize), log, bufferSize);
  }

  lemma RecentRestores(recent: seq<Entry>, log: seq<Entry>, bufferSize: nat, maxBytes: nat)
    requires bufferSize >= 1 && IsRecent(recent, log, bufferSize)
    ensures Pushed(recent, bufferSize, maxBytes) == Pushed(log, bufferSize, maxBytes)
  {
    assert |recent| == |log| ==> recent == log;
    PushedForgets(log, recent, bufferSize, maxBytes);
  }

  /** Crash equivalence, with its exact condition: rehydrating from disk gives the
      buffer that was lost if and only if the configured size is positive or
      nothing was ever appended. */
  lemma RehydrateRestoresIff(log: seq<Entry>, bufferSize: int, maxBytes: int)
    ensures Rehydrated(TableOf(log, bufferSize), bufferSize, maxBytes)
         == Pushed(log, AtLeastOne(bufferSize), AtLeastOne(maxBytes))
       <==> bufferSize >= 1 || log == []
    ensures bufferSize >= 1 ==>
      IsWindow(Rehydrated(TableOf(log, bufferSize), bufferSize, maxBytes), log, bufferSize,
               if maxBytes < 1 then 1 else maxBytes)
  {
    PushedIsWindow(log, AtLeastOne(bufferSize), AtLeastOne(maxBytes));
    var cap, bytes := AtLeastOne(bufferSize), AtLeastOne(maxBytes);
    if bufferSize >= 1 {
      RecentSurvivesPruning(log, bufferSize);
      RecentRestores(Entries(Recent(TableOf(log, bufferSize), bufferSize)), log, bufferSize, bytes);
    } else if log != [] {
      PushedIsWindow(log, cap, bytes);
      if bufferSize < 0 { NegativeSizeKeepsNothing(log, bufferSize); }
      assert Entries(Recent(TableOf(log, bufferSize), bufferSize)) == [];
    }
  }

  // ---- Every run of one session ----

  /** Where an append is: its buffer push is done, or also its INSERT. */
  datatype Stage = Resting | Pushing(e: Entry) | Inserted(next: int)

  /** An entry that was pushed, and whether a crash then kept it from being inserted. */
  datatype Sent = Sent(entry: Entry, lost: bool)

  /** One session: its rows, its buffer when a process has it open, how far an append has
      come, and (as the specification) every entry inserted and every entry pushed since it
      was last dropped. */
  datatype Session = Session(
    rows: seq<Row>, live: Option<seq<Entry>>, stage: Stage, log: seq<Entry>, sent: seq<Sent>)

  /** Push, Insert and Prune are the three parts of an append; a crash can fall anywhere. */
  datatype Step = Open | Push(e: Entry) | Insert | Prune | Crash | Drop

  const EMPTY := Session([], None, Resting, [], [])

  function LastLost(sent: seq<Sent>): seq<Sent>
  {
    if sent == [] then [] else sent[..|sent| - 1] + [Sent(sent[|sent| - 1].entry, true)]
  }

  /** The entries pushed and not lost. */
  function Kept(sent: seq<Sent>): seq<Entry>
  {
    if sent == [] then []
    else Kept(sent[..|sent| - 1]) + if sent[|sent| - 1].lost then [] else [sent[|sent| - 1].entry]
  }

  function Do(s: Session, step: Step, bufferSize: int, maxBytes: int): Session
  {
    match step
    case Open => if s.live.Some? then s else s.(live := Some(Rehydrated(s.rows, bufferSize, maxBytes)))
    case Push(e) =>
      // an append comes through a session handle, so the session is open
      if s.live.None? || !s.stage.Resting? then s
      else
        s.(live := Some(Evict(s.live.value + [e], AtLeastOne(bufferSize), AtLeastOne(maxBytes))),
           stage := Pushing(e), sent := s.sent + [Sent(e, false)])
    case Insert =>
      if !s.stage.Pushing? then s
      else s.(rows := InsertRow(s.rows, s.stage.e), log := s.log + [s.stage.e], stage := Inserted(NextIdx(s.rows)))
    case Prune =>
      if !s.stage.Inserted? then s else s.(rows := PruneRows(s.rows, s.stage.next, bufferSize), stage := Resting)
    case Crash =>
      s.(live := None, stage := Resting, sent := if s.stage.Pushing? then LastLost(s.sent) else s.sent)
    case Drop => if s.stage.Resting? then EMPTY else s
  }

  /** A whole append. */
  function Appended(s: Session, e: Entry, bufferSize: int, maxBytes: int): Session
  {
    Do(Do(Do(s, Push(e), bufferSize, maxBytes), Insert, bufferSize, maxBytes), Prune, bufferSize, maxBytes)
  }

  lemma AppendedIs(s: Session, e: Entry, bufferSize: int, maxBytes: int)
    requires s.live.Some? && s.stage.Resting?
    ensures Appended(s, e, bufferSize, maxBytes) == Session(
      AppendRow(s.rows, e, bufferSize),
      Some(Evict(s.live.value + [e], AtLeastOne(bufferSize), AtLeastOne(maxBytes))),
      Resting, s.log + [e], s.sent + [Sent(e, false)])
  {
  }

  function Run(s: Session, steps: seq<Step>, bufferSize: int, maxBytes: int): Session
  {
    if steps == [] then s
    else Do(Run(s, steps[..|steps| - 1], bufferSize, maxBytes), steps[|steps| - 1], bufferSize, maxBytes)
  }

  function WindowOf(log: seq<Entry>, bufferSize: int, maxBytes: int): seq<Entry>
  {
    Pushed(log, AtLeastOne(bufferSize), AtLeastOne(maxBytes))
  }

  /** The log with the entry of an append that has been pushed and not inserted. */
  function Shown(s: Session): seq<Entry> { if s.stage.Pushing? then s.log + [s.stage.e] else s.log }

  /** The table is the end of the log, and an open buffer is the window of the log, with
      the entry of an append under way. */
  ghost predicate Faithful(s: Session, bufferSize: int, maxBytes: int)
  {
    && bufferSize >= 1 && IsTail(s.rows, s.log, bufferSize)
    && (s.live.Some? ==>
          s.live.value == WindowOf(Shown(s), bufferSize, maxBytes))
    && Kept(s.sent) == Shown(s) && (s.stage.Pushing? ==> s.sent != [] && !s.sent[|s.sent| - 1].lost)
    && (s.live.None? ==> s.stage.Resting?)
    && (s.stage.Inserted? ==> s.log != [] && s.stage.next == |s.log| - 1)
  }

  lemma InsertKeepsTail(rows: seq<Row>, log: seq<Entry>, e: Entry, bufferSize: nat)
    requires IsTail(rows, log, bufferSize)
    ensures NextIdx(rows) == |log| && IsTail(InsertRow(rows, e), log + [e], bufferSize)
  {
    var lo := |log| - |rows|;
    assert rows + [Row(|log|, e)] == Slice(log + [e], lo);
  }

  lemma PruneKeepsTail(rows: seq<Row>, log: seq<Entry>, bufferSize: nat)
    requires IsTail(rows, log, bufferSize) && log != []
    ensures IsTail(PruneRows(rows, |log| - 1, bufferSize), log, bufferSize)
  {
    var lo, cutoff := |log| - |rows|, |log| - 1 - 2 * bufferSize;
    if cutoff > 0 { DropBelowSlice(log, lo, cutoff); }
  }

  /** Rehydration from any such table, pruned or not, gives the window of its log. */
  lemma TailRehydrates(rows: seq<Row>, log: seq<Entry>, bufferSize: int, maxBytes: int)
    requires bufferSize >= 1 && IsTail(rows, log, bufferSize)
    ensures Rehydrated(rows, bufferSize, maxBytes) == WindowOf(log, bufferSize, maxBytes)
  {
    RecentOfTail(rows, log, bufferSize);
    RecentRestores(Entries(Recent(rows, bufferSize)), log, bufferSize, AtLeastOne(maxBytes));
  }

  lemma DoKeepsFaithful(s: Session, step: Step, bufferSize: int, maxBytes: int)
    requires Faithful(s, bufferSize, maxBytes)
    ensures Faithful(Do(s, step, bufferSize, maxBytes), bufferSize, maxBytes)
  {
    match step
    case Open => TailRehydrates(s.rows, s.log, bufferSize, maxBytes);
    case Push(e) => WindowPush(s.log, e, bufferSize, maxBytes); KeptSnoc(s.sent, Sent(e, false));
    case Insert => if s.stage.Pushing? { InsertKeepsTail(s.rows, s.log, s.stage.e, bufferSize); }
    case Prune => if s.stage.Inserted? { PruneKeepsTail(s.rows, s.log, bufferSize); }
    case Crash => if s.stage.Pushing? { LostKept(s.sent, s.log, s.stage.e); }
    case Drop =>
  }

  lemma KeptSnoc(sent: seq<Sent>, x: Sent)
    ensures Kept(sent + [x]) == Kept(sent) + if x.lost then [] else [x.entry]
  {
    assert (sent + [x])[..|sent|] == sent;
  }

  /** Losing the last entry takes exactly it away. */
  lemma LostKept(sent: seq<Sent>, log: seq<Entry>, e: Entry)
    requires sent != [] && !sent[|sent| - 1].lost && Kept(sent) == log + [e]
    ensures Kept(LastLost(sent)) == log
  {
    var init, last := sent[..|sent| - 1], sent[|sent| - 1];
    KeptSnoc(init, Sent(last.entry, true));
    assert Kept(init) + [last.entry] == log + [e];
    assert (Kept(init) + [last.entry])[..|log|] == (log + [e])[..|log|];
  }

  lemma WindowPush(log: seq<Entry>, e: Entry, bufferSize: int, maxBytes: int)
    ensures WindowOf(log + [e], bufferSize, maxBytes)
         == Evict(WindowOf(log, bufferSize, maxBytes) + [e], AtLeastOne(bufferSize), AtLeastOne(maxBytes))
  {
    assert (log + [e])[..|log|] == log;
  }

  /** An open buffer is the longest end of the log within the configured numbers. */
  ghost predicate HoldsWindow(s: Session, bufferSize: int, maxBytes: int)
    requires bufferSize >= 1
  {
    s.live.Some? ==> IsWindow(s.live.value, Shown(s), bufferSize, if maxBytes < 1 then 1 else maxBytes)
  }

  lemma FaithfulHoldsWindow(s: Session, bufferSize: int, maxBytes: int)
    requires Faithful(s, bufferSize, maxBytes)
    ensures HoldsWindow(s, bufferSize, maxBytes)
  {
    PushedIsWindow(Shown(s), AtLeastOne(bufferSize), AtLeastOne(maxBytes));
  }

  /** After any mix of opens, appends, drops and crashes — also inside an append — the
      table is the end of the log of inserted entries, which are the entries pushed but for
      those a crash kept from being inserted, and an open session holds exactly its window. */
  lemma {:induction false} EveryRunFaithful(steps: seq<Step>, bufferSize: int, maxBytes: int)
    requires bufferSize >= 1
    ensures Faithful(Run(EMPTY, steps, bufferSize, maxBytes), bufferSize, maxBytes)
    ensures HoldsWindow(Run(EMPTY, steps, bufferSize, maxBytes), bufferSize, maxBytes)
  {
    if steps == [] {
    } else {
      EveryRunFaithful(steps[..|steps| - 1], bufferSize, maxBytes);
      DoKeepsFaithful(Run(EMPTY, steps[..|steps| - 1], bufferSize, maxBytes), steps[|steps| - 1], bufferSize, maxBytes);
    }
    FaithfulHoldsWindow(Run(EMPTY, steps, bufferSize, maxBytes), bufferSize, maxBytes);
  }

  /** What crash and reopen make of a session. */
  ghost predicate Reopened(s: Session, s': Session, bufferSize: int, maxBytes: int)
  {
    && s'.log == s.log && s'.rows == s.rows && s'.live == Some(WindowOf(s.log, bufferSize, maxBytes))
    && s'.sent == (if s.stage.Pushing? then LastLost(s.sent) else s.sent)
    && (s.stage.Resting? ==> s' == s)
    && (s.stage.Pushing? ==> s.live == Some(WindowOf(s.log + [s.stage.e], bufferSize, maxBytes)))
    && (s.stage.Inserted? ==> s'.live == s.live)
  }

  lemma CrashThenOpen(s: Session, bufferSize: int, maxBytes: int)
    requires Faithful(s, bufferSize, maxBytes) && s.live.Some?
    ensures Reopened(s, Do(Do(s, Crash, bufferSize, maxBytes), Open, bufferSize, maxBytes), bufferSize, maxBytes)
  {
    TailRehydrates(s.rows, s.log, bufferSize, maxBytes);
  }

  lemma RunTwo(s: Session, steps: seq<Step>, a: Step, b: Step, bufferSize: int, maxBytes: int)
    ensures Run(s, steps + [a, b], bufferSize, maxBytes)
         == Do(Do(Run(s, steps, bufferSize, maxBytes), a, bufferSize, maxBytes), b, bufferSize, maxBytes)
  {
    var one, two := steps + [a], steps + [a, b];
    assert two[..|two| - 1] == one && one[..|one| - 1] == steps;
  }

  /** Crash and reopen at any point of any run: a resting session comes back as it was; a
      crash before the INSERT loses exactly the entry of that append; one between INSERT
      and DELETE loses nothing. */
  lemma CrashReopenLoses(steps: seq<Step>, bufferSize: int, maxBytes: int)
    requires bufferSize >= 1 && Run(EMPTY, steps, bufferSize, maxBytes).live.Some?
    ensures Reopened(Run(EMPTY, steps, bufferSize, maxBytes), Run(EMPTY, steps + [Crash, Open], bufferSize, maxBytes),
                     bufferSize, maxBytes)
  {
    EveryRunFaithful(steps, bufferSize, maxBytes);
    CrashThenOpen(Run(EMPTY, steps, bufferSize, maxBytes), bufferSize, maxBytes);
    RunTwo(EMPTY, steps, Crash, Open, bufferSize, maxBytes);
  }

  /** The k-th of the pushed entries is the j-th of those kept, and splits both. */
  ghost predicate SplitsAt(sent: seq<Sent>, k: nat, j: nat)
  {
    && k < |sent| && !sent[k].lost && j < |Kept(sent)| && Kept(sent)[j] == sent[k].entry
    && Kept(sent[..k + 1]) == Kept(sent)[..j + 1] && Kept(sent[k + 1..]) == Kept(sent)[j + 1..]
  }

  lemma KeptLast(sent: seq<Sent>, x: Sent)
    requires !x.lost
    ensures SplitsAt(sent + [x], |sent|, |Kept(sent)|)
  {
    KeptSnoc(sent, x);
    var more := sent + [x];
    assert more[..|sent| + 1] == more && more[|sent| + 1..] == [];
  }

  lemma KeptLonger(sent: seq<Sent>, x: Sent, k: nat, j: nat)
    requires SplitsAt(sent, k, j)
    ensures SplitsAt(sent + [x], k, j)
  {
    var more := sent + [x];
    assert more[..k + 1] == sent[..k + 1] && more[k + 1..] == sent[k + 1..] + [x];
    KeptSnoc(sent, x);
    KeptSnoc(sent[k + 1..], x);
  }

  lemma {:induction false} KeptWhere(sent: seq<Sent>, j: nat) returns (k: nat)
    requires j < |Kept(sent)|
    ensures SplitsAt(sent, k, j)
  {
    if sent == [] {
    } else {
      var init, last := sent[..|sent| - 1], sent[|sent| - 1];
      assert sent == init + [last];
      if j < |Kept(init)| {
        k := KeptWhere(init, j);
        KeptLonger(init, last, k, j);
      } else {
        k := |init|;
        KeptLast(init, last);
      }
    }
  }

  /** The reply is what was pushed after the id, but for what a crash kept from the table. */
  ghost predicate MissedIs(sent: seq<Sent>, lastID: string, events: seq<Envelope>, k: nat)
  {
    k < |sent| && !sent[k].lost && sent[k].entry.env.id == lastID && events == Envelopes(Kept(sent[k + 1..]))
  }

  lemma EnvelopesAfter(log: seq<Entry>, j: nat, events: seq<Envelope>)
    requires j < |log| && Envelopes(log[..j + 1]) + events == Envelopes(log)
    ensures events == Envelopes(log[j + 1..])
  {
    assert |events| == |log| - (j + 1);
    forall i | 0 <= i < |events| ensures events[i] == Envelopes(log[j + 1..])[i] {
      assert events[i] == (Envelopes(log[..j + 1]) + events)[j + 1 + i];
    }
  }

  /** A reconnecting client at any point of any run is either told it is stale or gets
      everything pushed after the id it last saw, but for exactly the entries that a crash
      kept from being inserted. */
  lemma ReconnectIsComplete(steps: seq<Step>, bufferSize: int, maxBytes: int, lastID: string, r: Reply)
    requires bufferSize >= 1 && lastID != ""
    requires var s := Run(EMPTY, steps, bufferSize, maxBytes);
      s.live.Some? && Increasing(Shown(s)) && SinceMeets(s.live.value, lastID, r)
    ensures var s := Run(EMPTY, steps, bufferSize, maxBytes);
      && HoldsWindow(s, bufferSize, maxBytes) && (!r.stale <==> Holds(s.live.value, lastID))
      && (!r.stale ==> exists k :: MissedIs(s.sent, lastID, r.events, k))
  {
    EveryRunFaithful(steps, bufferSize, maxBytes);
    var s := Run(EMPTY, steps, bufferSize, maxBytes);
    var log := Shown(s);
    SinceIsComplete(log, AtLeastOne(bufferSize), AtLeastOne(maxBytes), lastID, r);
    if !r.stale {
      var j :| 0 <= j < |log| && log[j].env.id == lastID && Envelopes(log[..j + 1]) + r.events == Envelopes(log);
      EnvelopesAfter(log, j, r.events);
      var k := KeptWhere(s.sent, j);
      assert MissedIs(s.sent, lastID, r.events, k);
    }
  }

  // ---- The store object ----

  /** SQLiteStore over many sids.  `rows` is the session_events table, `sessions` the
      live buffers of this process. */
  class SQLiteStore {
    const bufferSize: int
    const maxBytes: int
    var rows: map<string, seq<Row>>
    var sessions: map<string, RingBuffer>
    ghost var logs: map<string, seq<Entry>>
    ghost var sent: map<string, seq<Sent>>

    ghost predicate Valid()
      reads this, sessions.Values
    {
      && (forall sid :: sid in sessions ==>
            && sessions[sid].Valid()
            && sessions[sid].cap == AtLeastOne(bufferSize) && sessions[sid].maxBytes == AtLeastOne(maxBytes))
      && (forall a, b :: a in sessions && b in sessions && a != b ==> sessions[a] != sessions[b])
    }

    function RowsOf(sid: string): seq<Row> reads this { if sid in rows then rows[sid] else [] }

    ghost function LogOf(sid: string): seq<Entry> reads this { if sid in logs then logs[sid] else [] }

    ghost function SentOf(sid: string): seq<Sent> reads this { if sid in sent then sent[sid] else [] }

    /** One sid's share of the store. */
    ghost function View(sid: string): Session
      reads this, sessions.Values
    {
      var live := if sid in sessions then Some(sessions[sid].items) else None;
      Session(RowsOf(sid), live, Resting, LogOf(sid), SentOf(sid))
    }

    constructor (bufferSize: int, maxBytes: int)
      ensures Valid() && this.bufferSize == bufferSize && this.maxBytes == maxBytes
      ensures sessions == map[] && forall sid :: View(sid) == EMPTY
    {
      this.bufferSize := bufferSize;
      this.maxBytes := maxBytes;
      rows, sessions, logs, sent := map[], map[], map[], map[];
    }

    /** GetOrCreate: the live session, or a new one rehydrated from disk. */
    method GetOrCreate(sid: string) returns (s: RingBuffer)
      requires Valid()
      modifies this`sessions
      ensures Valid() && sid in sessions && sessions[sid] == s
      ensures View(sid) == Do(old(View(sid)), Open, bufferSize, maxBytes)
      ensures forall other :: other != sid ==> View(other) == old(View(other))
      ensures old(sid in sessions) ==> sessions == old(sessions)
      ensures !old(sid in sessions) ==> fresh(s)
    {
      if sid in sessions { return sessions[sid]; }
      s := Rehydrate(sid);
      sessions := sessions[sid := s];
    }

    /** rehydrate: read the newest rows first into a batch, then push the batch backwards. */
    method Rehydrate(sid: string) returns (s: RingBuffer)
      requires Valid()
      ensures fresh(s) && s.Valid() && s.cap == AtLeastOne(bufferSize) && s.maxBytes == AtLeastOne(maxBytes)
      ensures s.items == Rehydrated(RowsOf(sid), bufferSize, maxBytes)
    {
      s := new RingBuffer(bufferSize, maxBytes);
      var recent := Recent(RowsOf(sid), bufferSize);
      var batch: seq<Entry> := [];
      var k := |recent|;
      while k > 0
        invariant 0 <= k <= |recent| && |batch| == |recent| - k
        invariant forall i :: 0 <= i < |batch| ==> batch[i] == recent[|recent| - 1 - i].entry
      {
        k := k - 1;
        batch := batch + [recent[k].entry];
      }
      ghost var all := Entries(recent);
      var i := |batch| - 1;
      while i >= 0
        invariant -1 <= i < |batch| && fresh(s) && s.Valid()
        invariant s.items == Pushed(all[..|all| - 1 - i], s.cap, s.maxBytes)
      {
        ghost var done := all[..|all| - 1 - i];
        assert all[..|all| - i] == done + [batch[i]];
        assert (done + [batch[i]])[..|done|] == done;
        s.Push(batch[i]);
        i := i - 1;
      }
      assert all[..|all|] == all;
    }

    /** The persist hook: appendRow, with the specification kept in step. */
    method Persist(sid: string, e: Entry)
      modifies this`rows, this`logs, this`sent
      ensures RowsOf(sid) == AppendRow(old(RowsOf(sid)), e, bufferSize)
      ensures LogOf(sid) == old(LogOf(sid)) + [e] && SentOf(sid) == old(SentOf(sid)) + [Sent(e, false)]
      ensures forall other :: other != sid ==>
        RowsOf(other) == old(RowsOf(other)) && LogOf(other) == old(LogOf(other)) && SentOf(other) == old(SentOf(other))
    {
      var table := RowsOf(sid);
      logs, sent := logs[sid := LogOf(sid) + [e]], sent[sid := SentOf(sid) + [Sent(e, false)]];
      rows := rows[sid := PruneRows(InsertRow(table, e), NextIdx(table), bufferSize)];
    }

    /** Session.Append with the store's persist hook, sequential per sid. */
    method Append(sid: string, e: Entry)
      requires Valid() && sid in sessions
      modifies this`rows, this`logs, this`sent, sessions[sid]
      ensures Valid() && View(sid) == Appended(old(View(sid)), e, bufferSize, maxBytes)
      ensures forall other :: other != sid ==> View(other) == old(View(other))
    {
      AppendedIs(View(sid), e, bufferSize, maxBytes);
      sessions[sid].Push(e);
      Persist(sid, e);
    }

    /** The process dies: every live buffer is gone, the table stays. */
    method CrashAll()
      requires Valid()
      modifies this`sessions
      ensures Valid() && forall sid :: View(sid) == Do(old(View(sid)), Crash, bufferSize, maxBytes)
    {
      sessions := map[];
    }

    /** Drop: out of memory and off the disk. */
    method DropSession(sid: string)
      requires Valid()
      modifies this`rows, this`sessions, this`logs, this`sent
      ensures Valid() && View(sid) == Do(old(View(sid)), Drop, bufferSize, maxBytes)
      ensures sid !in sessions && RowsOf(sid) == []
      ensures forall other :: other != sid ==> View(other) == old(View(other))
    {
      sessions := sessions - {sid};
      rows := rows - {sid};
      logs := logs - {sid};
      sent := sent - {sid};
    }
  }
}
