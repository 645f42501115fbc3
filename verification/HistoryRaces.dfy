/** The history store under its real interleavings (internal/history/sqlite.go). Append
    and Compact hold the sid's mutex, but each reads the table in one statement and writes
    it in a later one; Reset takes no mutex, so it can fall between the two. */
module HistoryRaces {
  import opened Text
  import opened History

  /** What the holder of the sid's mutex read when it began, and whether a Reset has
      emptied the thread since. */
  datatype Held =
    | Free
    | Appending(next: nat, turn: Turn, overtaken: bool)
    | Compacting(text: seq<Row>, overtaken: bool)

  /** torn says that the operation open at the latest Reset has written since: an append
      that began on a non-empty thread, or a compaction. */
  datatype Store = Store(thread: Thread, held: Held, torn: bool)

  const INIT := Store(EMPTY, Free, false)

  datatype Step =
    | BeginAppend(turn: Turn)
    | EndAppend(stored: bool)
    | BeginCompact(overThreshold: bool)
    | EndCompact(summary: Option<string>, committed: bool)
    | ResetNow

  predicate Enabled(s: Store, step: Step)
  {
    match step
    case BeginAppend(_) => s.held.Free?
    case EndAppend(_) => s.held.Appending?
    case BeginCompact(_) => s.held.Free?
    case EndCompact(_, _) => s.held.Compacting? && |s.held.text| >= 2
    case ResetNow => true
  }

  /** replaceWithSummary on the victims read earlier, whatever the table is by now. */
  function Replaced(rows: seq<Row>, text: seq<Row>, summary: string): seq<Row>
    requires |text| >= 2
  {
    Insert(Delete(rows, Indices(text[..|text| / 2])), Row(text[0].idx, Turn(SystemSummary, summary, text[0].turn.ts)))
  }

  function Do(s: Store, step: Step): Store
    requires Enabled(s, step)
  {
    var t := s.thread;
    match step
    case BeginAppend(turn) => s.(held := Appending(NextIdx(t.rows), turn, false))
    case EndAppend(stored) =>
      var h := s.held;
      if !stored then s.(held := Free)
      else
        var rows := Insert(t.rows, Row(h.next, h.turn));
        Store(Thread(rows, t.log + [h.turn], t.blocks), Free, s.torn || (h.overtaken && h.next > 0))
    case BeginCompact(overThreshold) =>
      if overThreshold && |TextRows(t.rows)| >= 2 then s.(held := Compacting(TextRows(t.rows), false)) else s
    case EndCompact(summary, committed) =>
      var h := s.held;
      if summary.None? || !committed then s.(held := Free)
      else
        var torn := s.torn || h.overtaken;
        var blocks := if torn then t.blocks else t.blocks + [NextBlock(t, summary.value)];
        Store(Thread(Replaced(t.rows, h.text, summary.value), t.log, blocks), Free, torn)
    case ResetNow =>
      Store(EMPTY, if s.held.Free? then Free else s.held.(overtaken := true), false)
  }

  ghost predicate Runs(s: Store, steps: seq<Step>, s': Store)
    decreases |steps|
  {
    if steps == [] then s == s' else Enabled(s, steps[0]) && Runs(Do(s, steps[0]), steps[1..], s')
  }

  // ---- The invariant ----

  /** The table says what the log holds, or it has run ahead of the log for good. */
  ghost predicate TableOk(s: Store)
  {
    if s.torn then Sorted(s.thread.rows) && NextIdx(s.thread.rows) > |s.thread.log|
    else Faithful(s.thread.rows, s.thread.log, s.thread.blocks)
  }

  /** What was read is still there, unless a Reset emptied the thread. */
  ghost predicate HeldOk(s: Store)
  {
    match s.held
    case Free => true
    case Appending(next, _, overtaken) =>
      if overtaken then s.thread == EMPTY && !s.torn else next == NextIdx(s.thread.rows)
    case Compacting(text, overtaken) =>
      |text| >= 2 && if overtaken then s.thread == EMPTY && !s.torn else text == TextRows(s.thread.rows)
  }

  ghost predicate Inv(s: Store) { TableOk(s) && HeldOk(s) }

  // ---- A torn table stays ahead of its log ----

  lemma {:induction false} DeleteWithin(rows: seq<Row>, victims: seq<nat>, n: nat)
    requires SortedBelow(rows, n)
    ensures SortedBelow(Delete(rows, victims), n)
    ensures forall k :: 0 <= k < |Delete(rows, victims)| ==> Delete(rows, victims)[k].idx !in victims
  {
    if rows == [] {
    } else {
      var last := rows[|rows| - 1];
      SortedFront(rows);
      DeleteWithin(rows[..|rows| - 1], victims, last.idx);
      SortedSnoc(Delete(rows[..|rows| - 1], victims), last);
    }
  }

  lemma {:induction false} InsertWithin(rows: seq<Row>, r: Row, n: nat)
    requires SortedBelow(rows, n) && r.idx < n && forall k :: 0 <= k < |rows| ==> rows[k].idx != r.idx
    ensures SortedBelow(Insert(rows, r), n)
  {
    if rows == [] || rows[|rows| - 1].idx < r.idx {
    } else {
      var last := rows[|rows| - 1];
      SortedFront(rows);
      InsertWithin(rows[..|rows| - 1], r, last.idx);
      SortedSnoc(Insert(rows[..|rows| - 1], r), last);
    }
  }

  /** Compaction rewrites the older half, so the newest row and the next index stay. */
  lemma ReplacedKeepsTop(rows: seq<Row>, summary: string)
    requires Sorted(rows) && |TextRows(rows)| >= 2
    ensures Sorted(Replaced(rows, TextRows(rows), summary))
    ensures NextIdx(Replaced(rows, TextRows(rows), summary)) == NextIdx(rows)
  {
    var text, n := TextRows(rows), |rows| - 1;
    var victims := Indices(text[..|text| / 2]);
    var r := Row(text[0].idx, Turn(SystemSummary, summary, text[0].turn.ts));
    var top := rows[n].idx + 1;
    assert SortedBelow(rows, top);
    TextRowsWithin(rows, top);
    DeleteWithin(rows, victims, top);
    assert victims[0] == r.idx;
    InsertWithin(Delete(rows, victims), r, top);
    assert forall k :: 0 <= k < |victims| ==> victims[k] == text[k].idx < text[|text| - 1].idx <= rows[n].idx;
    assert Delete(rows, victims) == Delete(rows[..n], victims) + [rows[n]];
    InsertSnoc(Delete(rows[..n], victims), rows[n], r);
  }

  lemma {:induction false} InsertAtTop(rows: seq<Row>, turn: Turn)
    ensures Insert(rows, Row(NextIdx(rows), turn)) == rows + [Row(NextIdx(rows), turn)]
  {
  }

  // ---- Every step, every run ----

  lemma EndAppendKeepsInv(s: Store, stored: bool)
    requires Inv(s) && Enabled(s, EndAppend(stored))
    ensures Inv(Do(s, EndAppend(stored)))
  {
    var t, h := s.thread, s.held;
    if stored && h.overtaken {
      if h.next == 0 { AppendFaithful([], [], [], h.turn); }
    } else if stored {
      InsertAtTop(t.rows, h.turn);
      if !s.torn {
        NextIdxIsLogLength(t.rows, t.log, t.blocks);
        AppendFaithful(t.rows, t.log, t.blocks, h.turn);
      }
    }
  }

  lemma EndCompactKeepsInv(s: Store, summary: Option<string>, committed: bool)
    requires Inv(s) && Enabled(s, EndCompact(summary, committed))
    ensures Inv(Do(s, EndCompact(summary, committed)))
  {
    var t, h := s.thread, s.held;
    if summary.Some? && committed && !h.overtaken {
      if s.torn {
        ReplacedKeepsTop(t.rows, summary.value);
      } else {
        CompactFaithful(t.rows, t.log, t.blocks, summary.value, NextBlock(t, summary.value));
      }
    }
  }

  lemma DoKeepsInv(s: Store, step: Step)
    requires Inv(s) && Enabled(s, step)
    ensures Inv(Do(s, step))
  {
    match step
    case EndAppend(stored) => EndAppendKeepsInv(s, stored);
    case EndCompact(summary, committed) => EndCompactKeepsInv(s, summary, committed);
    case _ =>
  }

  lemma {:induction false} RunKeepsInv(s: Store, steps: seq<Step>, s': Store)
    requires Inv(s) && Runs(s, steps, s')
    ensures Inv(s')
    decreases |steps|
  {
    if steps == [] {
    } else {
      DoKeepsInv(s, steps[0]);
      RunKeepsInv(Do(s, steps[0]), steps[1..], s');
    }
  }

  /** Exactly when the table is faithful to the log, over every interleaving: unless an
      operation that a Reset overtook has written into the emptied thread. The next index
      agrees with the uncompacted store under the same condition. */
  lemma FaithfulIffNotTorn(steps: seq<Step>, s: Store)
    requires Runs(INIT, steps, s)
    ensures (exists blocks :: Faithful(s.thread.rows, s.thread.log, blocks)) <==> !s.torn
    ensures NextIdx(s.thread.rows) == |s.thread.log| <==> !s.torn
  {
    RunKeepsInv(INIT, steps, s);
    var t := s.thread;
    forall blocks | Faithful(t.rows, t.log, blocks) ensures NextIdx(t.rows) == |t.log| {
      NextIdxIsLogLength(t.rows, t.log, blocks);
    }
    if !s.torn { assert Faithful(t.rows, t.log, t.blocks); }
  }

  /** No Reset while an operation holds the mutex. */
  ghost predicate ResetsApart(s: Store, steps: seq<Step>)
    decreases |steps|
  {
    steps == [] ||
    (Enabled(s, steps[0]) && (steps[0].ResetNow? ==> s.held.Free?) && ResetsApart(Do(s, steps[0]), steps[1..]))
  }

  /** With resets apart nothing is ever torn, so every such run is faithful. */
  lemma {:induction false} ResetsApartFaithful(s: Store, steps: seq<Step>, s': Store)
    requires Inv(s) && !s.torn && (s.held.Free? || !s.held.overtaken)
    requires Runs(s, steps, s') && ResetsApart(s, steps)
    ensures !s'.torn && Faithful(s'.thread.rows, s'.thread.log, s'.thread.blocks)
    decreases |steps|
  {
    if steps == [] {
    } else {
      DoKeepsInv(s, steps[0]);
      ResetsApartFaithful(Do(s, steps[0]), steps[1..], s');
    }
  }

  /** A call that nothing overtakes is the one step of the sequential store. */
  lemma UninterruptedCalls(s: Store, turn: Turn, summary: Option<string>, committed: bool)
    requires Inv(s) && s.held.Free? && !s.torn
    ensures Do(Do(s, BeginAppend(turn)), EndAppend(true)).thread == History.Do(s.thread, Append(turn))
    ensures |TextRows(s.thread.rows)| >= 2 ==>
      Do(Do(s, BeginCompact(true)), EndCompact(summary, committed)).thread
      == History.Do(s.thread, Compact(true, summary, committed))
  {
    InsertAtTop(s.thread.rows, turn);
  }

  // ---- What a Reset in between does ----

  /** A Reset between Append's two statements leaves the turn alone at its old index,
      which is right exactly when the thread was empty when the append began. */
  lemma OvertakenAppend(s: Store)
    requires Inv(s) && s.held.Appending?
    ensures var t := Do(Do(s, ResetNow), EndAppend(true)).thread;
      && t.rows == [Row(s.held.next, s.held.turn)] && t.log == [s.held.turn]
      && ((exists blocks :: Faithful(t.rows, t.log, blocks)) <==> s.held.next == 0)
  {
    var r, turn := Row(s.held.next, s.held.turn), s.held.turn;
    forall blocks | Faithful([r], [turn], blocks) ensures NextIdx([r]) == 1 { NextIdxIsLogLength([r], [turn], blocks); }
    if r.idx == 0 { AppendFaithful([], [], [], turn); }
  }

  /** A Reset while the summarizer works leaves an old summary in a thread with no log. */
  lemma OvertakenCompact(s: Store, summary: string, blocks: seq<Block>)
    requires Inv(s) && s.held.Compacting?
    ensures var t := Do(Do(s, ResetNow), EndCompact(Some(summary), true)).thread; var first := s.held.text[0];
      && t.rows == [Row(first.idx, Turn(SystemSummary, summary, first.turn.ts))] && t.log == []
      && !Faithful(t.rows, t.log, blocks)
  {
  }

  lemma {:induction false} RunsSnoc(s: Store, steps: seq<Step>, m: Store, step: Step)
    requires Runs(s, steps, m) && Enabled(m, step)
    ensures Runs(s, steps + [step], Do(m, step))
    decreases |steps|
  {
    if steps == [] {
      assert Runs(Do(s, step), [step][1..], Do(m, step));
    } else {
      assert (steps + [step])[1..] == steps[1..] + [step];
      RunsSnoc(Do(s, steps[0]), steps[1..], m, step);
    }
  }

  lemma AppendRun(steps: seq<Step>, s: Store, turn: Turn) returns (steps': seq<Step>, s': Store)
    requires Runs(INIT, steps, s) && s.held.Free? && !s.torn
    ensures Runs(INIT, steps', s') && s'.held.Free? && !s'.torn
    ensures s'.thread.rows == s.thread.rows + [Row(NextIdx(s.thread.rows), turn)]
  {
    RunsSnoc(INIT, steps, s, BeginAppend(turn));
    var m := Do(s, BeginAppend(turn));
    RunsSnoc(INIT, steps + [BeginAppend(turn)], m, EndAppend(true));
    steps', s' := steps + [BeginAppend(turn)] + [EndAppend(true)], Do(m, EndAppend(true));
    InsertAtTop(s.thread.rows, turn);
  }

  /** Both tears are reached from an empty store by ordinary calls. */
  lemma TearsAreReached(t: Turn, u: Turn, summary: string)
    requires IsText(t) && IsText(u)
    ensures exists steps, s :: Runs(INIT, steps, s) && s.torn && s.thread.rows == [Row(1, u)] && s.thread.log == [u]
    ensures exists steps, s :: Runs(INIT, steps, s) && s.torn && |s.thread.rows| == 1 && s.thread.log == []
  {
    var steps1, s1 := AppendRun([], INIT, t);
    assert s1.thread.rows == [Row(0, t)];
    ResetInAppend(steps1, s1, u);
    var steps2, s2 := AppendRun(steps1, s1, u);
    TwoTextRows(s2.thread.rows, t, u);
    ResetInCompact(steps2, s2, summary);
  }

  lemma TwoTextRows(rows: seq<Row>, t: Turn, u: Turn)
    requires IsText(t) && IsText(u) && rows == [Row(0, t)] + [Row(1, u)]
    ensures |TextRows(rows)| >= 2
  {
    assert [] + [Row(0, t)] == [Row(0, t)];
    TextRowsSnoc([], Row(0, t));
    TextRowsSnoc([Row(0, t)], Row(1, u));
  }

  lemma ResetInAppend(steps: seq<Step>, s: Store, u: Turn)
    requires Runs(INIT, steps, s) && s.held.Free? && |s.thread.rows| == 1 && s.thread.rows[0].idx == 0
    ensures exists steps, s :: Runs(INIT, steps, s) && s.torn && s.thread.rows == [Row(1, u)] && s.thread.log == [u]
  {
    var s1 := Do(s, BeginAppend(u));
    var s2 := Do(s1, ResetNow);
    RunsSnoc(INIT, steps, s, BeginAppend(u));
    RunsSnoc(INIT, steps + [BeginAppend(u)], s1, ResetNow);
    RunsSnoc(INIT, steps + [BeginAppend(u)] + [ResetNow], s2, EndAppend(true));
    assert Do(s2, EndAppend(true)).thread.log == [u];
  }

  lemma ResetInCompact(steps: seq<Step>, s: Store, summary: string)
    requires Runs(INIT, steps, s) && s.held.Free? && |TextRows(s.thread.rows)| >= 2
    ensures exists steps, s :: Runs(INIT, steps, s) && s.torn && |s.thread.rows| == 1 && s.thread.log == []
  {
    var s1 := Do(s, BeginCompact(true));
    var s2 := Do(s1, ResetNow);
    RunsSnoc(INIT, steps, s, BeginCompact(true));
    RunsSnoc(INIT, steps + [BeginCompact(true)], s1, ResetNow);
    RunsSnoc(INIT, steps + [BeginCompact(true)] + [ResetNow], s2, EndCompact(Some(summary), true));
  }
}
