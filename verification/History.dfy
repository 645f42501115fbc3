/** Conversation history with compaction (internal/history/sqlite.go) beside the
    uncompacted in-memory store (internal/history/memory.go).

    The specification is the full log of turns appended since the last reset.  A
    compacted table is described by the log and a list of blocks: block (lo, hi)
    says that the text turns number lo to hi-1 were condensed into one summary. */
module History {
  import opened Text

  /** The speaker of a turn; Unset is the empty role Append refuses. */
  datatype Role = Unset | User | Assistant | ToolCall | ToolResult | SystemSummary | Other(name: string)

  datatype Turn = Turn(role: Role, parts: string, ts: int)
  /** One row of the turns table of a sid; rows are kept in turn_idx order. */
  datatype Row = Row(idx: nat, turn: Turn)
  datatype Block = Block(lo: nat, hi: nat, summary: string)

  /** role IN ('user', 'assistant'): what the compactor may rewrite. */
  predicate IsText(t: Turn) { t.role.User? || t.role.Assistant? }

  // ---- The statements the store issues ----

  /** SELECT COALESCE(MAX(turn_idx), -1) + 1 */
  function NextIdx(rows: seq<Row>): nat
  {
    if rows == [] then 0 else rows[|rows| - 1].idx + 1
  }

  /** DELETE of every listed turn_idx */
  function Delete(rows: seq<Row>, victims: seq<nat>): seq<Row>
  {
    if rows == [] then []
    else
      var last := rows[|rows| - 1];
      Delete(rows[..|rows| - 1], victims) + if last.idx in victims then [] else [last]
  }

  /** INSERT, at its place in turn_idx order */
  function Insert(rows: seq<Row>, r: Row): seq<Row>
  {
    if rows == [] || rows[|rows| - 1].idx < r.idx then rows + [r]
    else Insert(rows[..|rows| - 1], r) + [rows[|rows| - 1]]
  }

  /** SELECT ... WHERE role IN (user, assistant) ORDER BY turn_idx */
  function TextRows(rows: seq<Row>): seq<Row>
  {
    if rows == [] then []
    else
      var last := rows[|rows| - 1];
      TextRows(rows[..|rows| - 1]) + if IsText(last.turn) then [last] else []
  }

  function Indices(rows: seq<Row>): (r: seq<nat>)
    ensures |r| == |rows|
  {
    seq(|rows|, i requires 0 <= i < |rows| => rows[i].idx)
  }

  // ---- Sorted tables ----

  ghost predicate Sorted(rows: seq<Row>)
  {
    forall i, j :: 0 <= i < j < |rows| ==> rows[i].idx < rows[j].idx
  }

  /** Sorted, with every index below n. */
  ghost predicate SortedBelow(rows: seq<Row>, n: nat)
  {
    Sorted(rows) && forall k :: 0 <= k < |rows| ==> rows[k].idx < n
  }

  lemma SortedSnoc(rows: seq<Row>, r: Row)
    requires SortedBelow(rows, r.idx)
    ensures SortedBelow(rows + [r], r.idx + 1)
  {
  }

  lemma SortedFront(rows: seq<Row>)
    requires Sorted(rows) && rows != []
    ensures SortedBelow(rows[..|rows| - 1], rows[|rows| - 1].idx)
  {
  }

  lemma {:induction false} TextRowsWithin(rows: seq<Row>, n: nat)
    requires SortedBelow(rows, n)
    ensures SortedBelow(TextRows(rows), n)
  {
    if rows == [] {
    } else {
      var last := rows[|rows| - 1];
      SortedFront(rows);
      TextRowsWithin(rows[..|rows| - 1], last.idx);
      SortedSnoc(TextRows(rows[..|rows| - 1]), last);
    }
  }

  lemma {:induction false} TextRowsMembers(rows: seq<Row>, r: Row)
    ensures r in TextRows(rows) <==> r in rows && (r.turn.role == User || r.turn.role == Assistant)
  {
    if rows == [] {
    } else {
      TextRowsMembers(rows[..|rows| - 1], r);
      assert rows == rows[..|rows| - 1] + [rows[|rows| - 1]];
    }
  }

  lemma {:induction false} DeleteMembers(rows: seq<Row>, victims: seq<nat>, r: Row)
    ensures r in Delete(rows, victims) <==> r in rows && r.idx !in victims
  {
    if rows == [] {
    } else {
      DeleteMembers(rows[..|rows| - 1], victims, r);
      assert rows == rows[..|rows| - 1] + [rows[|rows| - 1]];
    }
  }

  lemma {:induction false} InsertMembers(rows: seq<Row>, x: Row, r: Row)
    ensures r in Insert(rows, x) <==> r in rows || r == x
  {
    if rows == [] || rows[|rows| - 1].idx < x.idx {
    } else {
      InsertMembers(rows[..|rows| - 1], x, r);
      assert rows == rows[..|rows| - 1] + [rows[|rows| - 1]];
    }
  }

  // ---- The table a log and a list of blocks stand for ----

  /** How many text turns come before position i: the ordinal of a text turn at i. */
  function Ord(log: seq<Turn>, i: nat): nat
    requires i <= |log|
  {
    if i == 0 then 0 else Ord(log, i - 1) + if IsText(log[i - 1]) then 1 else 0
  }

  function Dropped(blocks: seq<Block>): nat
  {
    if blocks == [] then 0 else blocks[|blocks| - 1].hi
  }

  function StartingAt(blocks: seq<Block>, k: nat): Option<Block>
  {
    if blocks == [] then None
    else if blocks[|blocks| - 1].lo == k then Some(blocks[|blocks| - 1])
    else StartingAt(blocks[..|blocks| - 1], k)
  }

  /** Consecutive, non-empty blocks from ordinal 0 on. */
  predicate Chain(blocks: seq<Block>)
  {
    blocks == [] ||
    var init, last := blocks[..|blocks| - 1], blocks[|blocks| - 1];
    last.lo < last.hi && last.lo == Dropped(init) && Chain(init)
  }

  function SummaryTurn(b: Block, ts: int): Turn { Turn(SystemSummary, b.summary, ts) }

  /** The row at position i: tool rows and late text turns are themselves, the
      first turn of a block is its summary, the rest of a block is gone. */
  function RowAt(log: seq<Turn>, blocks: seq<Block>, i: nat): Option<Row>
    requires i < |log|
  {
    var k := Ord(log, i);
    if !IsText(log[i]) || k >= Dropped(blocks) then Some(Row(i, log[i]))
    else
      match StartingAt(blocks, k)
      case Some(b) => Some(Row(i, SummaryTurn(b, log[i].ts)))
      case None => None
  }

  function Table(log: seq<Turn>, blocks: seq<Block>, n: nat): seq<Row>
    requires n <= |log|
  {
    if n == 0 then []
    else
      var r := RowAt(log, blocks, n - 1);
      Table(log, blocks, n - 1) + if r.Some? then [r.value] else []
  }

  ghost predicate IsTable(rows: seq<Row>, log: seq<Turn>, blocks: seq<Block>)
  {
    rows == Table(log, blocks, |log|)
  }

  ghost predicate Faithful(rows: seq<Row>, log: seq<Turn>, blocks: seq<Block>)
  {
    && Chain(blocks)
    && (Dropped(blocks) == 0 || Dropped(blocks) < Ord(log, |log|))
    && IsTable(rows, log, blocks)
  }

  // ---- What a faithful table means to a reader ----

  lemma {:induction false} TableHas(log: seq<Turn>, blocks: seq<Block>, n: nat, i: nat)
    requires i < n <= |log|
    ensures RowAt(log, blocks, i).Some? ==> RowAt(log, blocks, i).value in Table(log, blocks, n)
  {
    if i == n - 1 {
    } else {
      TableHas(log, blocks, n - 1, i);
    }
  }

  lemma {:induction false} TableOnly(log: seq<Turn>, blocks: seq<Block>, n: nat, r: Row)
    requires n <= |log| && r in Table(log, blocks, n)
    ensures r.idx < n && RowAt(log, blocks, r.idx) == Some(r)
  {
    if r !in Table(log, blocks, n - 1) {
    } else {
      TableOnly(log, blocks, n - 1, r);
    }
  }

  lemma {:induction false} TableSorted(log: seq<Turn>, blocks: seq<Block>, n: nat)
    requires n <= |log|
    ensures forall i, j :: 0 <= i < j < |Table(log, blocks, n)| ==>
      Table(log, blocks, n)[i].idx < Table(log, blocks, n)[j].idx
    ensures forall i :: 0 <= i < |Table(log, blocks, n)| ==> Table(log, blocks, n)[i].idx < n
  {
    if n == 0 {
    } else {
      TableSorted(log, blocks, n - 1);
    }
  }

  lemma {:induction false} OrdMonotone(log: seq<Turn>, i: nat, j: nat)
    requires i <= j <= |log|
    ensures Ord(log, i) <= Ord(log, j)
    ensures i < j && IsText(log[i]) ==> Ord(log, i) < Ord(log, j)
  {
    if i == j || i == j - 1 {
    } else {
      OrdMonotone(log, i, j - 1);
    }
  }

  lemma {:induction false} ChainBelow(blocks: seq<Block>, i: nat)
    requires Chain(blocks) && i < |blocks|
    ensures blocks[i].lo < blocks[i].hi <= Dropped(blocks)
  {
    if i == |blocks| - 1 {
    } else {
      ChainBelow(blocks[..|blocks| - 1], i);
    }
  }

  lemma {:induction false} StartingAtFinds(blocks: seq<Block>, i: nat)
    requires Chain(blocks) && i < |blocks|
    ensures StartingAt(blocks, blocks[i].lo) == Some(blocks[i])
  {
    if i == |blocks| - 1 {
    } else {
      StartingAtFinds(blocks[..|blocks| - 1], i);
      ChainBelow(blocks[..|blocks| - 1], i);
    }
  }

  /** Every dropped ordinal lies in a block. */
  lemma {:induction false} BlockCovers(blocks: seq<Block>, k: nat) returns (i: nat)
    requires Chain(blocks) && k < Dropped(blocks)
    ensures i < |blocks| && blocks[i].lo <= k < blocks[i].hi
  {
    if k < blocks[|blocks| - 1].lo {
      i := BlockCovers(blocks[..|blocks| - 1], k);
    } else {
      i := |blocks| - 1;
    }
  }

  /** The blocks do not overlap. */
  lemma {:induction false} BlocksDisjoint(blocks: seq<Block>, i: nat, j: nat)
    requires Chain(blocks) && i < j < |blocks|
    ensures blocks[i].hi <= blocks[j].lo
  {
    if j < |blocks| - 1 {
      BlocksDisjoint(blocks[..|blocks| - 1], i, j);
    } else {
      ChainBelow(blocks[..|blocks| - 1], i);
    }
  }

  /** What became of the turn at position i of the log: a tool turn is intact at its
      own index; a text turn is intact exactly when it is among the last ones; an
      earlier one lies in one block, and the first of a block carries its summary. */
  lemma FaithfulAt(rows: seq<Row>, log: seq<Turn>, blocks: seq<Block>, i: nat)
    requires Faithful(rows, log, blocks) && i < |log|
    ensures !IsText(log[i]) ==> Row(i, log[i]) in rows
    ensures IsText(log[i]) ==> (Row(i, log[i]) in rows <==> Ord(log, i) >= Dropped(blocks))
    ensures IsText(log[i]) && Ord(log, i) < Dropped(blocks) ==>
      exists b :: 0 <= b < |blocks| && blocks[b].lo <= Ord(log, i) < blocks[b].hi
                  && (Ord(log, i) == blocks[b].lo ==> Row(i, SummaryTurn(blocks[b], log[i].ts)) in rows)
  {
    TableHas(log, blocks, |log|, i);
    if Row(i, log[i]) in rows { TableOnly(log, blocks, |log|, Row(i, log[i])); }
    if IsText(log[i]) && Ord(log, i) < Dropped(blocks) {
      var b := BlockCovers(blocks, Ord(log, i));
      StartingAtFinds(blocks, b);
    }
  }

  /** Nothing else is in the table: a row is a turn of the log at its own index, or
      the summary of a block at the index of the block's first turn. */
  lemma {:induction false} FaithfulOnly(rows: seq<Row>, log: seq<Turn>, blocks: seq<Block>, r: Row)
    requires Faithful(rows, log, blocks) && r in rows
    ensures r.idx < |log|
    ensures log[r.idx] == r.turn
         || (IsText(log[r.idx]) && exists b :: 0 <= b < |blocks| && blocks[b].lo == Ord(log, r.idx)
                                               && r.turn == SummaryTurn(blocks[b], log[r.idx].ts))
  {
    TableOnly(log, blocks, |log|, r);
    if log[r.idx] != r.turn { StartingAtIsThere(blocks, Ord(log, r.idx)); }
  }

  lemma {:induction false} StartingAtIsThere(blocks: seq<Block>, k: nat)
    ensures StartingAt(blocks, k).Some? ==>
      exists b :: 0 <= b < |blocks| && blocks[b].lo == k && StartingAt(blocks, k) == Some(blocks[b])
  {
    if blocks == [] || blocks[|blocks| - 1].lo == k {
    } else {
      StartingAtIsThere(blocks[..|blocks| - 1], k);
    }
  }

  /** Chronological order, one row per index. */
  lemma FaithfulSorted(rows: seq<Row>, log: seq<Turn>, blocks: seq<Block>)
    requires Faithful(rows, log, blocks)
    ensures forall i, j :: 0 <= i < j < |rows| ==> rows[i].idx < rows[j].idx
  {
    TableSorted(log, blocks, |log|);
  }

  // ---- Append ----

  lemma {:induction false} TablePrefix(log: seq<Turn>, t: Turn, blocks: seq<Block>, n: nat)
    requires n <= |log|
    ensures Ord(log + [t], n) == Ord(log, n)
    ensures Table(log + [t], blocks, n) == Table(log, blocks, n)
  {
    if n == 0 {
    } else {
      TablePrefix(log, t, blocks, n - 1);
      assert (log + [t])[n - 1] == log[n - 1];
    }
  }

  /** The newest row of a faithful table is the newest turn of the log, so the next
      index is the length of the log. */
  lemma NextIdxIsLogLength(rows: seq<Row>, log: seq<Turn>, blocks: seq<Block>)
    requires Faithful(rows, log, blocks)
    ensures NextIdx(rows) == |log|
  {
  }

  lemma AppendFaithful(rows: seq<Row>, log: seq<Turn>, blocks: seq<Block>, t: Turn)
    requires Faithful(rows, log, blocks)
    ensures Faithful(rows + [Row(|log|, t)], log + [t], blocks)
  {
    TablePrefix(log, t, blocks, |log|);
    assert RowAt(log + [t], blocks, |log|) == Some(Row(|log|, t));
  }

  // ---- Compact ----

  lemma TextRowsSnoc(rows: seq<Row>, r: Row)
    ensures TextRows(rows + [r]) == TextRows(rows) + if IsText(r.turn) then [r] else []
  {
  }

  /** l lists the text turns below n from ordinal d on, in order. */
  ghost predicate ListsText(l: seq<Row>, log: seq<Turn>, d: nat, n: nat)
    requires n <= |log|
  {
    && |l| == (if Ord(log, n) > d then Ord(log, n) - d else 0)
    && forall j :: 0 <= j < |l| ==>
         l[j].idx < n && IsText(log[l[j].idx]) && l[j].turn == log[l[j].idx] && Ord(log, l[j].idx) == d + j
  }

  lemma ListsTextStep(l: seq<Row>, log: seq<Turn>, d: nat, i: nat)
    requires i < |log| && ListsText(l, log, d, i)
    ensures ListsText(if IsText(log[i]) && Ord(log, i) >= d then l + [Row(i, log[i])] else l, log, d, i + 1)
  {
  }

  /** The text rows of a faithful table, in order, are the text turns from ordinal Dropped on. */
  lemma {:induction false} TextRowsAre(log: seq<Turn>, blocks: seq<Block>, n: nat)
    requires n <= |log|
    ensures ListsText(TextRows(Table(log, blocks, n)), log, Dropped(blocks), n)
  {
    if n == 0 {
    } else {
      var i := n - 1;
      TextRowsAre(log, blocks, i);
      ListsTextStep(TextRows(Table(log, blocks, i)), log, Dropped(blocks), i);
      TextRowsOfNext(log, blocks, i);
    }
  }

  lemma TextRowsOfNext(log: seq<Turn>, blocks: seq<Block>, i: nat)
    requires i < |log|
    ensures TextRows(Table(log, blocks, i + 1))
         == if IsText(log[i]) && Ord(log, i) >= Dropped(blocks) then TextRows(Table(log, blocks, i)) + [Row(i, log[i])]
            else TextRows(Table(log, blocks, i))
  {
    var r := RowAt(log, blocks, i);
    var rows := Table(log, blocks, i);
    assert Table(log, blocks, i + 1) == rows + if r.Some? then [r.value] else [];
    if r.Some? {
      TextRowsSnoc(rows, r.value);
      assert TextRows(rows) + [] == TextRows(rows);
    } else {
      assert rows + [] == rows;
    }
  }

  /** victims lists exactly the text turns with ordinals d .. d+half. */
  ghost predicate Victims(victims: seq<nat>, log: seq<Turn>, d: nat, half: nat)
  {
    forall i: nat :: i in victims <==> i < |log| && IsText(log[i]) && d <= Ord(log, i) < d + half
  }

  lemma OrdInjective(log: seq<Turn>, i: nat, j: nat)
    requires i < |log| && j < |log| && IsText(log[i]) && IsText(log[j]) && Ord(log, i) == Ord(log, j)
    ensures i == j
  {
    if i < j { OrdMonotone(log, i, j); } else if j < i { OrdMonotone(log, j, i); }
  }

  lemma FirstHalfAreVictims(log: seq<Turn>, blocks: seq<Block>, half: nat)
    requires half <= |TextRows(Table(log, blocks, |log|))|
    ensures Victims(Indices(TextRows(Table(log, blocks, |log|))[..half]), log, Dropped(blocks), half)
  {
    var d := Dropped(blocks);
    var l := TextRows(Table(log, blocks, |log|));
    var victims := Indices(l[..half]);
    TextRowsAre(log, blocks, |log|);
    forall i: nat ensures i in victims <==> i < |log| && IsText(log[i]) && d <= Ord(log, i) < d + half {
      if i in victims {
        var j :| 0 <= j < half && victims[j] == i;
        assert l[j].idx == i;
      }
      if i < |log| && IsText(log[i]) && d <= Ord(log, i) < d + half {
        var j := Ord(log, i) - d;
        OrdInjective(log, i, l[j].idx);
        assert victims[j] == i;
      }
    }
  }

  lemma {:induction false} StartingAtOther(blocks: seq<Block>, b: Block, k: nat)
    requires k != b.lo
    ensures StartingAt(blocks + [b], k) == StartingAt(blocks, k)
  {
  }

  /** Nothing starts at or above what has been dropped. */
  lemma {:induction false} NoStartAbove(blocks: seq<Block>, k: nat)
    requires Chain(blocks) && k >= Dropped(blocks)
    ensures StartingAt(blocks, k).None?
  {
    if blocks == [] {
    } else {
      NoStartAbove(blocks[..|blocks| - 1], k);
    }
  }

  /** How one more block changes the row at a position. */
  lemma RowAfterBlock(log: seq<Turn>, blocks: seq<Block>, b: Block, i: nat)
    requires i < |log| && Chain(blocks) && b.lo == Dropped(blocks) && b.lo < b.hi
    ensures var was, now := RowAt(log, blocks, i), RowAt(log, blocks + [b], i);
      if IsText(log[i]) && b.lo <= Ord(log, i) < b.hi then
        && was == Some(Row(i, log[i]))
        && now == if Ord(log, i) == b.lo then Some(Row(i, SummaryTurn(b, log[i].ts))) else None
      else now == was
  {
    var k := Ord(log, i);
    if k != b.lo { StartingAtOther(blocks, b, k); }
    if k >= b.lo { NoStartAbove(blocks, k); }
  }

  lemma DeleteSnoc(rows: seq<Row>, r: Row, victims: seq<nat>)
    ensures Delete(rows + [r], victims) == Delete(rows, victims) + if r.idx in victims then [] else [r]
  {
  }

  lemma InsertSnoc(rows: seq<Row>, last: Row, r: Row)
    ensures r.idx <= last.idx ==> Insert(rows + [last], r) == Insert(rows, r) + [last]
    ensures last.idx < r.idx ==> Insert(rows + [last], r) == rows + [last] + [r]
  {
  }

  lemma InsertAtEnd(rows: seq<Row>, r: Row)
    requires forall i :: 0 <= i < |rows| ==> rows[i].idx < r.idx
    ensures Insert(rows, r) == rows + [r]
  {
  }

  /** One step of the walk along the log that shows delete-then-insert is adding a block. */
  lemma CompactRow(rows: seq<Row>, now: seq<Row>, i: nat, victims: seq<nat>,
                   summary: Row, was: Option<Row>, next: Option<Row>)
    requires was.Some? ==> was.value.idx == i
    requires summary.idx <= i
    requires if i == summary.idx then was.Some? && i in victims && next == Some(summary)
             else if i in victims then next.None? else next == was
    requires if i == summary.idx then Delete(rows, victims) == now && forall j :: 0 <= j < |now| ==> now[j].idx < i
             else Insert(Delete(rows, victims), summary) == now
    ensures Insert(Delete(rows + (if was.Some? then [was.value] else []), victims), summary)
         == now + (if next.Some? then [next.value] else [])
  {
    assert rows + [] == rows && now + [] == now && Delete(rows, victims) + [] == Delete(rows, victims);
    if was.Some? { DeleteSnoc(rows, was.value, victims); }
    if i == summary.idx {
      InsertAtEnd(now, summary);
    } else if was.Some? && i !in victims {
      InsertSnoc(Delete(rows, victims), was.value, summary);
    }
  }

  ghost predicate Walkable(log: seq<Turn>, blocks: seq<Block>, b: Block, victims: seq<nat>, first: nat)
  {
    && first < |log| && Chain(blocks)
    && b.lo == Dropped(blocks) && b.lo < b.hi && Victims(victims, log, b.lo, b.hi - b.lo)
    && IsText(log[first]) && Ord(log, first) == b.lo
  }

  /** Deleting the victims below n and putting the summary in place gives the table with one more block. */
  ghost predicate Walked(log: seq<Turn>, blocks: seq<Block>, b: Block, victims: seq<nat>, first: nat, n: nat)
    requires n <= |log| && first < |log|
  {
    if n <= first then Delete(Table(log, blocks, n), victims) == Table(log, blocks + [b], n)
    else Insert(Delete(Table(log, blocks, n), victims), Row(first, SummaryTurn(b, log[first].ts)))
         == Table(log, blocks + [b], n)
  }

  lemma WalkStep(log: seq<Turn>, blocks: seq<Block>, b: Block, victims: seq<nat>, first: nat, i: nat)
    requires i < |log| && Walkable(log, blocks, b, victims, first) && Walked(log, blocks, b, victims, first, i)
    ensures Walked(log, blocks, b, victims, first, i + 1)
  {
    RowAfterBlock(log, blocks, b, i);
    if i < first {
      OrdMonotone(log, i, first);
      BeforeFirst(log, blocks, b, victims, i);
    } else {
      if i > first { OrdMonotone(log, first, i); }
      TableSorted(log, blocks + [b], i);
      CompactRow(Table(log, blocks, i), Table(log, blocks + [b], i), i, victims,
                 Row(first, SummaryTurn(b, log[first].ts)), RowAt(log, blocks, i), RowAt(log, blocks + [b], i));
    }
  }

  lemma WalkStart(log: seq<Turn>, blocks: seq<Block>, b: Block, victims: seq<nat>, first: nat)
    requires first < |log|
    ensures Walked(log, blocks, b, victims, first, 0)
  {
  }

  lemma {:induction false} CompactWalk(log: seq<Turn>, blocks: seq<Block>, b: Block,
                                       victims: seq<nat>, first: nat, n: nat)
    requires n <= |log| && Walkable(log, blocks, b, victims, first)
    ensures Walked(log, blocks, b, victims, first, n)
  {
    if n == 0 {
      WalkStart(log, blocks, b, victims, first);
    } else {
      CompactWalk(log, blocks, b, victims, first, n - 1);
      WalkStep(log, blocks, b, victims, first, n - 1);
    }
  }

  lemma BeforeFirst(log: seq<Turn>, blocks: seq<Block>, b: Block, victims: seq<nat>, i: nat)
    requires i < |log| && i !in victims
    requires RowAt(log, blocks + [b], i) == RowAt(log, blocks, i)
    requires Delete(Table(log, blocks, i), victims) == Table(log, blocks + [b], i)
    ensures Delete(Table(log, blocks, i + 1), victims) == Table(log, blocks + [b], i + 1)
  {
    var r := RowAt(log, blocks, i);
    var rows := Table(log, blocks, i);
    if r.Some? {
      DeleteSnoc(rows, r.value, victims);
    } else {
      assert rows + [] == rows;
    }
  }

  /** replaceWithSummary on the first half of the text rows. */
  function Compacted(rows: seq<Row>, summary: string): seq<Row>
    requires |TextRows(rows)| >= 2
  {
    var text := TextRows(rows);
    var victims := text[..|text| / 2];
    Insert(Delete(rows, Indices(victims)), Row(text[0].idx, Turn(SystemSummary, summary, text[0].turn.ts)))
  }

  lemma CompactIsBlock(rows: seq<Row>, log: seq<Turn>, blocks: seq<Block>, summary: string, b: Block)
    requires Chain(blocks) && IsTable(rows, log, blocks) && |TextRows(rows)| >= 2
    requires b == Block(Dropped(blocks), Dropped(blocks) + |TextRows(rows)| / 2, summary)
    ensures IsTable(Compacted(rows, summary), log, blocks + [b])
  {
    var text := TextRows(rows);
    var half := |text| / 2;
    TextRowsAre(log, blocks, |log|);
    assert text[..half][0] == text[0];
    FirstHalfAreVictims(log, blocks, half);
    CompactWalk(log, blocks, b, Indices(text[..half]), text[0].idx, |log|);
  }

  /** A faithful table with n text rows has dropped all but the last n text turns. */
  lemma TextCount(rows: seq<Row>, log: seq<Turn>, blocks: seq<Block>)
    requires IsTable(rows, log, blocks)
    ensures |TextRows(rows)| == (if Ord(log, |log|) > Dropped(blocks) then Ord(log, |log|) - Dropped(blocks) else 0)
  {
    TextRowsAre(log, blocks, |log|);
  }

  /** Compaction is exactly one more block, and leaves n - n/2 of n text rows. */
  lemma CompactFaithful(rows: seq<Row>, log: seq<Turn>, blocks: seq<Block>, summary: string, b: Block)
    requires Faithful(rows, log, blocks) && |TextRows(rows)| >= 2
    requires b == Block(Dropped(blocks), Dropped(blocks) + |TextRows(rows)| / 2, summary)
    ensures Faithful(Compacted(rows, summary), log, blocks + [b])
    ensures |TextRows(Compacted(rows, summary))| == |TextRows(rows)| - |TextRows(rows)| / 2
  {
    CompactIsBlock(rows, log, blocks, summary, b);
    ChainGrows(blocks, b);
    TextCount(rows, log, blocks);
    TextCount(Compacted(rows, summary), log, blocks + [b]);
  }

  lemma ChainGrows(blocks: seq<Block>, b: Block)
    requires Chain(blocks) && b.lo == Dropped(blocks) && b.lo < b.hi
    ensures Chain(blocks + [b]) && Dropped(blocks + [b]) == b.hi
  {
  }

  // ---- Every run ----

  datatype Op =
    | Append(turn: Turn)
    /** The compactor's visit: whether the words reached the threshold, what the
        summarizer said, and whether the transaction committed. */
    | Compact(overThreshold: bool, summary: Option<string>, committed: bool)
    | Reset

  /** The table, with the log and the blocks it stands for. */
  datatype Thread = Thread(rows: seq<Row>, log: seq<Turn>, blocks: seq<Block>)

  const EMPTY := Thread([], [], [])

  /** Whether a visit rewrites the table. */
  predicate Effective(rows: seq<Row>, op: Op)
  {
    op.Compact? && |TextRows(rows)| >= 2 && op.overThreshold && op.summary.Some? && op.committed
  }

  /** A visit that reaches the summarizer and fails there or at its transaction. */
  predicate Refused(rows: seq<Row>, op: Op)
  {
    op.Compact? && |TextRows(rows)| >= 2 && op.overThreshold && (op.summary.None? || !op.committed)
  }

  function Do(t: Thread, op: Op): Thread
  {
    match op
    case Append(turn) => Thread(t.rows + [Row(NextIdx(t.rows), turn)], t.log + [turn], t.blocks)
    case Reset => EMPTY
    case Compact(_, summary, _) =>
      if !Effective(t.rows, op) then t
      else Thread(Compacted(t.rows, summary.value), t.log, t.blocks + [NextBlock(t, summary.value)])
  }

  function NextBlock(t: Thread, summary: string): Block
  {
    Block(Dropped(t.blocks), Dropped(t.blocks) + |TextRows(t.rows)| / 2, summary)
  }

  function Run(t: Thread, ops: seq<Op>): Thread
  {
    if ops == [] then t else Do(Run(t, ops[..|ops| - 1]), ops[|ops| - 1])
  }

  lemma DoKeepsFaithful(t: Thread, op: Op)
    requires Faithful(t.rows, t.log, t.blocks)
    ensures var t' := Do(t, op); Faithful(t'.rows, t'.log, t'.blocks)
  {
    match op
    case Append(turn) =>
      NextIdxIsLogLength(t.rows, t.log, t.blocks);
      AppendFaithful(t.rows, t.log, t.blocks, turn);
    case Reset =>
    case Compact(_, summary, _) =>
      if Effective(t.rows, op) {
        CompactFaithful(t.rows, t.log, t.blocks, summary.value, NextBlock(t, summary.value));
      }
  }

  /** After any sequence of whole appends, compactions and resets the table is a
      faithful view of everything appended, and the next append gets the index the
      uncompacted store would give it. */
  lemma {:induction false} SequentialRunFaithful(ops: seq<Op>)
    ensures var t := Run(EMPTY, ops);
      Faithful(t.rows, t.log, t.blocks) && NextIdx(t.rows) == |t.log|
  {
    if ops == [] {
      assert Faithful(EMPTY.rows, EMPTY.log, EMPTY.blocks);
    } else {
      SequentialRunFaithful(ops[..|ops| - 1]);
      DoKeepsFaithful(Run(EMPTY, ops[..|ops| - 1]), ops[|ops| - 1]);
    }
    var t := Run(EMPTY, ops);
    NextIdxIsLogLength(t.rows, t.log, t.blocks);
  }

  function Pow2(k: nat): nat { if k == 0 then 1 else 2 * Pow2(k - 1) }

  /** How many of a run's visits rewrite the table. */
  function Rewrites(t: Thread, ops: seq<Op>): nat
    decreases |ops|
  {
    if ops == [] then 0
    else (if Effective(t.rows, ops[0]) then 1 else 0) + Rewrites(Do(t, ops[0]), ops[1..])
  }

  function Texts(t: Thread): nat { |TextRows(t.rows)| }

  lemma VisitHalves(t: Thread, op: Op)
    requires Faithful(t.rows, t.log, t.blocks) && op.Compact?
    ensures Texts(Do(t, op)) == if Effective(t.rows, op) then Texts(t) - Texts(t) / 2 else Texts(t)
    ensures Effective(t.rows, op) ==> Texts(t) >= 2
  {
    if Effective(t.rows, op) {
      CompactFaithful(t.rows, t.log, t.blocks, op.summary.value, NextBlock(t, op.summary.value));
    }
  }

  lemma HalfOfPow2(m: nat, k: nat)
    requires 2 <= m <= Pow2(k)
    ensures k >= 1 && m - m / 2 <= Pow2(k - 1)
  {
  }

  /** With no appends in between, a thread of at most 2^k text turns is summarised
      at most k times, however often the compactor comes by. */
  lemma {:induction false} RewritesBounded(t: Thread, ops: seq<Op>, k: nat)
    requires Faithful(t.rows, t.log, t.blocks)
    requires forall i :: 0 <= i < |ops| ==> ops[i].Compact?
    requires Texts(t) <= Pow2(k)
    ensures Rewrites(t, ops) <= k
    decreases |ops|
  {
    if ops == [] {
    } else {
      var t1 := Visited(t, ops[0]);
      var eff := Effective(t.rows, ops[0]);
      var k1 := if eff then k - 1 else k;
      assert 0 <= k1 && Texts(t1) <= Pow2(k1) by {
        if eff { HalfOfPow2(Texts(t), k); }
      }
      RewritesBounded(t1, ops[1..], k1);
    }
  }

  lemma Visited(t: Thread, op: Op) returns (t1: Thread)
    requires Faithful(t.rows, t.log, t.blocks) && op.Compact?
    ensures t1 == Do(t, op) && Faithful(t1.rows, t1.log, t1.blocks)
    ensures Texts(t1) == if Effective(t.rows, op) then Texts(t) - Texts(t) / 2 else Texts(t)
    ensures Effective(t.rows, op) ==> Texts(t) >= 2
  {
    t1 := Do(t, op);
    DoKeepsFaithful(t, op);
    VisitHalves(t, op);
  }

  // ---- What a summary summarises ----

  /** The text of a parts blob and the blob of a text (JSON). */
  datatype Codec = Codec(extract: string -> string, marshal: string -> string)

  type Summarizer = seq<Row> -> Option<string>

  /** One call of Compact: its threshold, its summarizer and whether its transaction commits. */
  datatype Visit = Visit(threshold: int, summarizer: Option<Summarizer>, commits: bool)

  /** What the summarizer is given for some rows: each with its own index, role and time, and
      the text of its parts. */
  function Condensed(rows: seq<Row>, codec: Codec): (asked: seq<Row>)
    ensures |asked| == |rows|
    ensures forall i :: 0 <= i < |rows| ==>
      && asked[i].idx == rows[i].idx && asked[i].turn.role == rows[i].turn.role && asked[i].turn.ts == rows[i].turn.ts
      && asked[i].turn.parts == codec.extract(rows[i].turn.parts)
  {
    seq(|rows|, i requires 0 <= i < |rows| =>
      Row(rows[i].idx, Turn(rows[i].turn.role, codec.extract(rows[i].turn.parts), rows[i].turn.ts)))
  }

  /** The call of Compact as one step of the thread. */
  ghost function VisitOp(rows: seq<Row>, v: Visit, codec: Codec): Op
  {
    var text := TextRows(rows);
    if v.threshold <= 0 || v.summarizer.None? then Compact(false, None, false)
    else
      var said := v.summarizer.value(Condensed(text[..|text| / 2], codec));
      Compact(Words(text, codec.extract) >= v.threshold,
              if said.Some? then Some(codec.marshal(said.value)) else None, v.commits)
  }

  /** The rows of one table that are missing from another, in order. */
  ghost predicate IsMissing(gone: seq<Row>, was: seq<Row>, now: seq<Row>)
  {
    Sorted(gone) && forall r :: r in gone <==> r in was && r !in now
  }

  /** The table with some rows gone and, where the first of them was, the summarizer's answer
      to exactly those rows. */
  ghost predicate Summarises(now: seq<Row>, was: seq<Row>, gone: seq<Row>, v: Visit, codec: Codec)
  {
    && IsMissing(gone, was, now) && gone != [] && v.summarizer.Some?
    && var said := v.summarizer.value(Condensed(gone, codec));
       && said.Some?
       && var summary := Row(gone[0].idx, Turn(SystemSummary, codec.marshal(said.value), gone[0].turn.ts));
          forall r :: r in now <==> r == summary || (r in was && r !in gone)
  }

  /** A visit that rewrites a table replaces the older half of its text rows by the
      summarizer's answer to them. */
  lemma VisitSummarises(rows: seq<Row>, v: Visit, codec: Codec)
    requires Sorted(rows) && Effective(rows, VisitOp(rows, v, codec))
    ensures var text := TextRows(rows);
      Summarises(Compacted(rows, VisitOp(rows, v, codec).summary.value), rows, text[..|text| / 2], v, codec)
  {
    var text := TextRows(rows);
    var gone := text[..|text| / 2];
    var parts := VisitOp(rows, v, codec).summary.value;
    var summary := Row(text[0].idx, Turn(SystemSummary, parts, text[0].turn.ts));
    TextRowsSorted(rows);
    forall r ensures r in Compacted(rows, parts) <==> r == summary || (r in rows && r !in gone) {
      CompactedMembers(rows, parts, r);
    }
    forall r ensures r in gone <==> r in rows && r !in Compacted(rows, parts) {
      GoneIsText(rows, gone, |text| / 2, r);
    }
  }

  lemma TextRowsSorted(rows: seq<Row>)
    requires Sorted(rows)
    ensures Sorted(TextRows(rows))
  {
    if rows != [] { TextRowsWithin(rows, rows[|rows| - 1].idx + 1); }
  }

  lemma GoneIsText(rows: seq<Row>, gone: seq<Row>, half: nat, r: Row)
    requires half <= |TextRows(rows)| && gone == TextRows(rows)[..half]
    ensures r in gone ==> r in rows && IsText(r.turn)
  {
    TextRowsMembers(rows, r);
  }

  lemma CompactedMembers(rows: seq<Row>, parts: string, r: Row)
    requires Sorted(rows) && |TextRows(rows)| >= 2
    ensures var text := TextRows(rows);
      r in Compacted(rows, parts) <==>
        r == Row(text[0].idx, Turn(SystemSummary, parts, text[0].turn.ts)) || (r in rows && r !in text[..|text| / 2])
  {
    var text := TextRows(rows);
    var gone := text[..|text| / 2];
    DeleteMembers(rows, Indices(gone), r);
    InsertMembers(Delete(rows, Indices(gone)), Row(text[0].idx, Turn(SystemSummary, parts, text[0].turn.ts)), r);
    if r in rows { IndexIsRow(rows, gone, r); }
  }

  /** In a sorted table an index names its row. */
  lemma IndexIsRow(rows: seq<Row>, gone: seq<Row>, r: Row)
    requires Sorted(rows) && r in rows && forall k :: 0 <= k < |gone| ==> gone[k] in TextRows(rows)
    ensures r.idx in Indices(gone) <==> r in gone
  {
    if r in gone {
      var k :| 0 <= k < |gone| && gone[k] == r;
      assert Indices(gone)[k] == r.idx;
    }
    if r.idx in Indices(gone) {
      var k :| 0 <= k < |gone| && gone[k].idx == r.idx;
      TextRowsMembers(rows, gone[k]);
      SameIndex(rows, gone[k], r);
    }
  }

  lemma SameIndex(rows: seq<Row>, x: Row, y: Row)
    requires Sorted(rows) && x in rows && y in rows && x.idx == y.idx
    ensures x == y
  {
  }

  /** When a call of Compact rewrites the table, and when it reports an error. */
  lemma VisitsWhen(rows: seq<Row>, v: Visit, codec: Codec)
    ensures var text := TextRows(rows);
      var due := v.threshold > 0 && v.summarizer.Some? && |text| >= 2 && Words(text, codec.extract) >= v.threshold;
      var said := due && v.summarizer.value(Condensed(text[..|text| / 2], codec)).Some?;
      && (Effective(rows, VisitOp(rows, v, codec)) <==> said && v.commits)
      && (Refused(rows, VisitOp(rows, v, codec)) <==> due && !(said && v.commits))
  {
  }

  // ---- The blocks of a run are the summarizer's answers ----

  datatype Call = Appends(turn: Turn) | Compacts(visit: Visit) | Resets

  ghost function OpOf(rows: seq<Row>, call: Call, codec: Codec): Op
  {
    match call
    case Appends(turn) => Append(turn)
    case Compacts(visit) => VisitOp(rows, visit, codec)
    case Resets => Reset
  }

  ghost function RunCalls(calls: seq<Call>, codec: Codec): Thread
  {
    if calls == [] then EMPTY
    else
      var t := RunCalls(calls[..|calls| - 1], codec);
      Do(t, OpOf(t.rows, calls[|calls| - 1], codec))
  }

  /** The text turns of a log, each at its own index: number k is the one of ordinal k. */
  function LogText(log: seq<Turn>): seq<Row> { TextRows(Plain(log)) }

  /** The block's summary is what the visit's summarizer said of exactly its turns. */
  ghost predicate AnswersFor(b: Block, log: seq<Turn>, v: Visit, codec: Codec)
  {
    && b.lo < b.hi <= |LogText(log)| && v.summarizer.Some?
    && var said := v.summarizer.value(Condensed(LogText(log)[b.lo..b.hi], codec));
       said.Some? && b.summary == codec.marshal(said.value)
  }

  ghost predicate AnsweredIn(b: Block, log: seq<Turn>, calls: seq<Call>, codec: Codec)
  {
    exists k :: 0 <= k < |calls| && calls[k].Compacts? && AnswersFor(b, log, calls[k].visit, codec)
  }

  lemma AnsweredLater(b: Block, log: seq<Turn>, calls: seq<Call>, codec: Codec, log': seq<Turn>, call: Call)
    requires AnsweredIn(b, log, calls, codec) && (log' == log || (|log'| == |log| + 1 && log == log'[..|log|]))
    ensures AnsweredIn(b, log', calls + [call], codec)
  {
    var k :| 0 <= k < |calls| && calls[k].Compacts? && AnswersFor(b, log, calls[k].visit, codec);
    assert (calls + [call])[k] == calls[k];
    if log' != log {
      var r := Row(|log|, log'[|log|]);
      assert Plain(log') == Plain(log) + [r];
      TextRowsSnoc(Plain(log), r);
      assert LogText(log')[b.lo..b.hi] == LogText(log)[b.lo..b.hi];
    }
  }

  lemma LogTextLists(log: seq<Turn>)
    ensures ListsText(LogText(log), log, 0, |log|)
  {
    IntactTail(log, [], 0, |log|);
    assert Table(log, [], 0) == [] && [] + Plain(log)[0..|log|] == Plain(log);
    TextRowsAre(log, [], |log|);
  }

  lemma ListsTextTail(text: seq<Row>, all: seq<Row>, log: seq<Turn>, d: nat)
    requires ListsText(text, log, d, |log|) && ListsText(all, log, 0, |log|) && text != []
    ensures d + |text| == |all| && text == all[d..]
  {
    forall j | 0 <= j < |text| ensures text[j] == all[d + j] {
      OrdInjective(log, text[j].idx, all[d + j].idx);
    }
  }

  /** The text rows of a faithful table are the text turns of the log from ordinal Dropped on. */
  lemma TextRowsAreLogs(log: seq<Turn>, blocks: seq<Block>)
    ensures var text := TextRows(Table(log, blocks, |log|));
      text != [] ==> Dropped(blocks) + |text| == |LogText(log)| && text == LogText(log)[Dropped(blocks)..]
  {
    var text := TextRows(Table(log, blocks, |log|));
    LogTextLists(log);
    TextRowsAre(log, blocks, |log|);
    if text != [] { ListsTextTail(text, LogText(log), log, Dropped(blocks)); }
  }

  lemma NewBlockAnswers(t: Thread, v: Visit, codec: Codec)
    requires Faithful(t.rows, t.log, t.blocks) && Effective(t.rows, VisitOp(t.rows, v, codec))
    ensures AnswersFor(NextBlock(t, VisitOp(t.rows, v, codec).summary.value), t.log, v, codec)
  {
    var text, d := TextRows(t.rows), Dropped(t.blocks);
    TextRowsAreLogs(t.log, t.blocks);
    assert text[..|text| / 2] == LogText(t.log)[d..d + |text| / 2];
  }

  /** After any calls the table is faithful, and the summary of every block is what the
      summarizer of one of the calls answered when given exactly the text turns that the block
      condenses. */
  lemma {:induction false} BlocksAreAnswers(calls: seq<Call>, codec: Codec)
    ensures var t := RunCalls(calls, codec);
      && Faithful(t.rows, t.log, t.blocks)
      && forall j :: 0 <= j < |t.blocks| ==> AnsweredIn(t.blocks[j], t.log, calls, codec)
  {
    if calls == [] {
      assert Faithful(EMPTY.rows, EMPTY.log, EMPTY.blocks);
    } else {
      var before, call := calls[..|calls| - 1], calls[|calls| - 1];
      assert calls == before + [call];
      BlocksAreAnswers(before, codec);
      var t := RunCalls(before, codec);
      var t' := Do(t, OpOf(t.rows, call, codec));
      DoKeepsFaithful(t, OpOf(t.rows, call, codec));
      forall j | 0 <= j < |t'.blocks| ensures AnsweredIn(t'.blocks[j], t'.log, calls, codec) {
        CallAnswers(t, before, call, codec, j);
      }
    }
  }

  lemma CallAnswers(t: Thread, before: seq<Call>, call: Call, codec: Codec, j: nat)
    requires Faithful(t.rows, t.log, t.blocks) && j < |Do(t, OpOf(t.rows, call, codec)).blocks|
    requires j < |t.blocks| ==> AnsweredIn(t.blocks[j], t.log, before, codec)
    ensures var t' := Do(t, OpOf(t.rows, call, codec)); AnsweredIn(t'.blocks[j], t'.log, before + [call], codec)
  {
    var t' := Do(t, OpOf(t.rows, call, codec));
    if j < |t.blocks| {
      AnsweredLater(t.blocks[j], t.log, before, codec, t'.log, call);
    } else {
      NewBlockAnswers(t, call.visit, codec);
      assert (before + [call])[|before|] == call;
    }
  }

  // ---- Words ----

  /** len(strings.Fields(s)) */
  function CountWords(s: string): nat
  {
    if s == "" then 0
    else CountWords(s[1..]) + if !IsSpace(s[0]) && (|s| == 1 || IsSpace(s[1])) then 1 else 0
  }

  predicate AllSpace(s: string) { forall i :: 0 <= i < |s| ==> IsSpace(s[i]) }

  predicate IsWord(s: string) { s != "" && forall i :: 0 <= i < |s| ==> !IsSpace(s[i]) }

  /** White space, then a word, then white space, and so on. */
  function Spaced(gaps: seq<string>, words: seq<string>): string
    requires |gaps| == |words| + 1
  {
    if words == [] then gaps[0] else gaps[0] + (words[0] + Spaced(gaps[1..], words[1..]))
  }

  /** The words of a text: maximal runs without white space, in order. */
  ghost predicate AreWords(words: seq<string>, gaps: seq<string>)
  {
    && |gaps| == |words| + 1
    && (forall i :: 0 <= i < |words| ==> IsWord(words[i]))
    && (forall i :: 0 <= i < |gaps| ==> AllSpace(gaps[i]))
    && (forall i :: 1 <= i < |gaps| - 1 ==> gaps[i] != "")
  }

  lemma {:induction false} SpaceAddsNone(gap: string, s: string)
    requires AllSpace(gap)
    ensures CountWords(gap + s) == CountWords(s)
  {
    if gap == "" {
      assert gap + s == s;
    } else {
      assert (gap + s)[1..] == gap[1..] + s;
      SpaceAddsNone(gap[1..], s);
    }
  }

  lemma {:induction false} WordAddsOne(word: string, s: string)
    requires IsWord(word) && (s == "" || IsSpace(s[0]))
    ensures CountWords(word + s) == 1 + CountWords(s)
  {
    assert (word + s)[1..] == word[1..] + s;
    if |word| == 1 {
      assert word[1..] + s == s;
    } else {
      WordAddsOne(word[1..], s);
      assert (word + s)[1] == word[1];
    }
  }

  /** The count is the number of words. */
  lemma {:induction false} CountWordsIs(words: seq<string>, gaps: seq<string>)
    requires AreWords(words, gaps)
    ensures CountWords(Spaced(gaps, words)) == |words|
  {
    if words == [] {
      SpaceAddsNone(gaps[0], "");
      assert gaps[0] + "" == gaps[0];
    } else {
      var rest := Spaced(gaps[1..], words[1..]);
      CountWordsIs(words[1..], gaps[1..]);
      assert rest == "" || IsSpace(rest[0]);
      WordAddsOne(words[0], rest);
      SpaceAddsNone(gaps[0], words[0] + rest);
    }
  }

  /** Every text is made of words and white space in this way. */
  lemma {:induction false} WordsOf(s: string) returns (words: seq<string>, gaps: seq<string>)
    ensures AreWords(words, gaps) && Spaced(gaps, words) == s
  {
    if s == "" {
      words, gaps := [], [""];
    } else {
      var c := [s[0]];
      assert s == c + s[1..];
      words, gaps := WordsOf(s[1..]);
      if IsSpace(s[0]) {
        var longer := [c + gaps[0]] + gaps[1..];
        assert longer[1..] == gaps[1..];
        assert words != [] ==> c + (gaps[0] + (words[0] + Spaced(gaps[1..], words[1..])))
                               == (c + gaps[0]) + (words[0] + Spaced(gaps[1..], words[1..]));
        gaps := longer;
      } else if words != [] && gaps[0] == "" {
        var longer := [c + words[0]] + words[1..];
        assert longer[1..] == words[1..];
        assert c + ("" + (words[0] + Spaced(gaps[1..], words[1..])))
            == "" + ((c + words[0]) + Spaced(gaps[1..], words[1..]));
        words := longer;
      } else {
        var words', gaps' := [c] + words, [""] + gaps;
        assert words'[1..] == words && gaps'[1..] == gaps;
        assert c + Spaced(gaps, words) == "" + (c + Spaced(gaps, words));
        words, gaps := words', gaps';
      }
    }
  }

  function Words(rows: seq<Row>, extract: string -> string): nat
  {
    if rows == [] then 0 else Words(rows[..|rows| - 1], extract) + CountWords(extract(rows[|rows| - 1].turn.parts))
  }

  lemma {:induction false} WordsConcat(a: seq<Row>, b: seq<Row>, extract: string -> string)
    ensures Words(a + b, extract) == Words(a, extract) + Words(b, extract)
    ensures |b| == 1 ==> Words(b, extract) == CountWords(extract(b[0].turn.parts))
  {
    if b == [] {
      assert a + b == a;
    } else {
      assert (a + b)[..|a + b| - 1] == a + b[..|b| - 1];
      WordsConcat(a, b[..|b| - 1], extract);
    }
  }

  // ---- Windows ----

  const NO_LIMIT: nat := 0x4000_0000

  /** The last `limit` rows, oldest first. */
  function LastRows(rows: seq<Row>, limit: nat): seq<Row>
  {
    if |rows| <= limit then rows else rows[|rows| - limit..]
  }

  /** As many rows as there are, up to the limit, and they are the newest. */
  lemma LastRowsAreNewest(rows: seq<Row>, limit: nat)
    ensures var window := LastRows(rows, limit);
      && |window| == (if |rows| < limit then |rows| else limit)
      && forall k :: 0 <= k < |window| ==> window[k] == rows[|rows| - |window| + k]
  {
    if |rows| <= limit {
      assert LastRows(rows, limit) == rows;
    } else {
      assert LastRows(rows, limit) == rows[|rows| - limit..];
    }
  }

  datatype AppendResult = Appended(idx: nat) | InvalidTurn
  datatype CompactResult = Collapsed(n: nat) | Failed

  /** SQLiteStore over many sids. */
  class SQLiteStore {
    var threads: map<string, seq<Row>>
    ghost var logs: map<string, seq<Turn>>
    ghost var blocks: map<string, seq<Block>>
    const codec: Codec

    constructor (codec: Codec)
      ensures this.codec == codec && forall sid :: View(sid) == EMPTY
    {
      threads, logs, blocks := map[], map[], map[];
      this.codec := codec;
    }

    function Rows(sid: string): seq<Row>
      reads this`threads
    {
      if sid in threads then threads[sid] else []
    }

    ghost function View(sid: string): Thread
      reads this
    {
      Thread(Rows(sid), if sid in logs then logs[sid] else [], if sid in blocks then blocks[sid] else [])
    }

    method AppendTurn(sid: string, role: Role, parts: string, ts: Option<int>, now: int) returns (r: AppendResult)
      modifies this`threads, this`logs
      ensures r.InvalidTurn? <==> sid == "" || role.Unset?
      ensures r.InvalidTurn? ==> threads == old(threads) && logs == old(logs)
      ensures r.Appended? ==>
        && r.idx == NextIdx(old(Rows(sid)))
        && Rows(sid) == old(Rows(sid)) + [Row(r.idx, Turn(role, parts, if ts.Some? then ts.value else now))]
        && View(sid) == Do(old(View(sid)), Append(Turn(role, parts, if ts.Some? then ts.value else now)))
      ensures forall other :: other != sid ==> View(other) == old(View(other))
    {
      if sid == "" || role.Unset? { return InvalidTurn; }
      var next := NextIdx(Rows(sid));
      var turn := Turn(role, parts, if ts.Some? then ts.value else now);
      threads := threads[sid := Rows(sid) + [Row(next, turn)]];
      logs := logs[sid := (if sid in logs then logs[sid] else []) + [turn]];
      r := Appended(next);
    }

    method ResetThread(sid: string)
      modifies this
      ensures View(sid) == Do(old(View(sid)), Reset) && Rows(sid) == []
      ensures forall other :: other != sid ==> View(other) == old(View(other))
    {
      threads, logs, blocks := threads - {sid}, logs - {sid}, blocks - {sid};
    }

    /** Compact, up to its transaction: the table it would leave. */
    method PlanCompaction(rows: seq<Row>, v: Visit) returns (r: CompactResult, table: seq<Row>)
      ensures var op := VisitOp(rows, v, codec);
        && table == (if Effective(rows, op) then Compacted(rows, op.summary.value) else rows)
        && (r.Failed? <==> Refused(rows, op))
        && (r.Collapsed? ==> r.n == if Effective(rows, op) then |TextRows(rows)| / 2 else 0)
      ensures r.Failed? || r.n == 0 ==> table == rows
      // what is gone is exactly what the summarizer was asked about
      ensures Sorted(rows) && r.Collapsed? && r.n > 0 ==>
        exists gone :: |gone| == r.n && Summarises(table, rows, gone, v, codec)
    {
      table := rows;
      if v.threshold <= 0 || v.summarizer.None? { return Collapsed(0), table; }
      var text := TextRows(rows);
      if |text| < 2 { return Collapsed(0), table; }
      var total := SumWords(text);
      if total < v.threshold { return Collapsed(0), table; }
      var half := |text| / 2;
      var victims := text[..half];
      var said := v.summarizer.value(Condensed(victims, codec));
      if said.None? { return Failed, table; }
      if !v.commits { return Failed, table; }
      var parts := codec.marshal(said.value);
      var kept := DeleteVictims(rows, Indices(victims));
      table := Insert(kept, Row(text[0].idx, Turn(SystemSummary, parts, text[0].turn.ts)));
      r := Collapsed(half);
      if Sorted(rows) { VisitSummarises(rows, v, codec); }
    }

    method SumWords(rows: seq<Row>) returns (total: nat)
      ensures total == Words(rows, codec.extract)
    {
      total := 0;
      var i := 0;
      while i < |rows|
        invariant 0 <= i <= |rows| && total == Words(rows[..i], codec.extract)
      {
        assert rows[..i + 1][..i] == rows[..i];
        total := total + CountWords(codec.extract(rows[i].turn.parts));
        i := i + 1;
      }
      assert rows[..|rows|] == rows;
    }

    /** Compact */
    method CompactThread(sid: string, v: Visit) returns (r: CompactResult)
      modifies this`threads, this`blocks
      ensures var op := VisitOp(old(Rows(sid)), v, codec);
        && View(sid) == Do(old(View(sid)), op)
        && (r.Failed? <==> Refused(old(Rows(sid)), op))
        && (r.Collapsed? ==> r.n == if Effective(old(Rows(sid)), op) then |TextRows(old(Rows(sid)))| / 2 else 0)
      // what is gone is exactly what the summarizer was asked about
      ensures Sorted(old(Rows(sid))) && r.Collapsed? && r.n > 0 ==>
        exists gone :: |gone| == r.n && Summarises(Rows(sid), old(Rows(sid)), gone, v, codec)
      // a summarizer error or a failed transaction leaves the table alone
      ensures r.Failed? || r.n == 0 ==> threads == old(threads)
      ensures forall other :: other != sid ==> View(other) == old(View(other))
    {
      ghost var was := View(sid);
      ghost var op := VisitOp(Rows(sid), v, codec);
      var table;
      r, table := PlanCompaction(Rows(sid), v);
      if r.Collapsed? && r.n > 0 {
        blocks := blocks[sid := was.blocks + [NextBlock(was, op.summary.value)]];
        threads := threads[sid := table];
        assert View(sid) == Thread(table, was.log, was.blocks + [NextBlock(was, op.summary.value)]);
      }
    }

    /** replaceWithSummary's loop: one prepared DELETE per victim. */
    method DeleteVictims(rows: seq<Row>, victims: seq<nat>) returns (kept: seq<Row>)
      ensures kept == Delete(rows, victims)
    {
      kept := rows;
      DeleteNothing(rows);
      var i := 0;
      while i < |victims|
        invariant 0 <= i <= |victims| && kept == Delete(rows, victims[..i])
      {
        kept := Delete(kept, [victims[i]]);
        DeleteTwice(rows, victims[..i], victims[i]);
        assert victims[..i] + [victims[i]] == victims[..i + 1];
        i := i + 1;
      }
      assert victims[..|victims|] == victims;
    }

    /** LoadWindow: newest first from the database, then reversed in place. */
    method LoadWindow(sid: string, n: int) returns (out: array<Row>)
      ensures fresh(out) && out[..] == LastRows(Rows(sid), if n <= 0 then NO_LIMIT else n)
      ensures n > 0 ==> out.Length == if |Rows(sid)| < n then |Rows(sid)| else n
    {
      var limit := n;
      if limit <= 0 { limit := NO_LIMIT; }
      var rows := LastRows(Rows(sid), limit);
      var m := |rows|;
      out := new Row[m](k requires 0 <= k < m => rows[m - 1 - k]);
      ReverseInPlace(out);
    }
  }

  /** LoadWindow's swap loop. */
  method ReverseInPlace(a: array<Row>)
    modifies a
    ensures forall k :: 0 <= k < a.Length ==> a[k] == old(a[a.Length - 1 - k])
  {
    var i, j := 0, a.Length - 1;
    while i < j
      invariant 0 <= i <= j + 1 && j == a.Length - 1 - i
      invariant forall k :: 0 <= k < i || j < k < a.Length ==> a[k] == old(a[a.Length - 1 - k])
      invariant forall k :: i <= k <= j ==> a[k] == old(a[k])
    {
      a[i], a[j] := a[j], a[i];
      i, j := i + 1, j - 1;
    }
  }

  lemma {:induction false} DeleteNothing(rows: seq<Row>)
    ensures Delete(rows, []) == rows
  {
    if rows == [] {
    } else {
      DeleteNothing(rows[..|rows| - 1]);
    }
  }

  lemma {:induction false} DeleteTwice(rows: seq<Row>, victims: seq<nat>, v: nat)
    ensures Delete(Delete(rows, victims), [v]) == Delete(rows, victims + [v])
  {
    if rows == [] {
    } else {
      var init, last := rows[..|rows| - 1], rows[|rows| - 1];
      DeleteTwice(init, victims, v);
      var d := Delete(init, victims);
      assert d + [] == d && Delete(d, [v]) + [] == Delete(d, [v]);
      if last.idx !in victims { DeleteSnoc(d, last, [v]); }
    }
  }

  /** MemoryStore: the simple store the compacted one is measured against. */
  class MemoryStore {
    var threads: map<string, seq<Row>>

    constructor ()
      ensures threads == map[]
    {
      threads := map[];
    }

    function Rows(sid: string): seq<Row>
      reads this
    {
      if sid in threads then threads[sid] else []
    }

    method AppendTurn(sid: string, turn: Turn) returns (r: AppendResult)
      modifies this
      ensures r.InvalidTurn? <==> sid == "" || turn.role.Unset?
      ensures r.InvalidTurn? ==> threads == old(threads)
      ensures r.Appended? ==> r.idx == |old(Rows(sid))| && Rows(sid) == old(Rows(sid)) + [Row(r.idx, turn)]
      ensures forall other :: other != sid ==> Rows(other) == old(Rows(other))
    {
      if sid == "" || turn.role.Unset? { return InvalidTurn; }
      var rows := Rows(sid);
      threads := threads[sid := rows + [Row(|rows|, turn)]];
      r := Appended(|rows|);
    }

    method LoadWindow(sid: string, n: int) returns (out: seq<Row>)
      ensures out == if n <= 0 then Rows(sid) else LastRows(Rows(sid), n)
    {
      var rows := Rows(sid);
      if n <= 0 || n >= |rows| { return rows; }
      out := rows[|rows| - n..];
    }

    method ResetThread(sid: string)
      modifies this
      ensures Rows(sid) == [] && forall other :: other != sid ==> Rows(other) == old(Rows(other))
    {
      threads := threads - {sid};
    }
  }

  /** The rows the in-memory store keeps for a log. */
  function Plain(log: seq<Turn>): seq<Row>
  {
    seq(|log|, i requires 0 <= i < |log| => Row(i, log[i]))
  }

  /** What MemoryStore.LoadWindow returns for a log. */
  function PlainWindow(log: seq<Turn>, n: int): seq<Row>
  {
    if n <= 0 then Plain(log) else LastRows(Plain(log), n)
  }

  /** No text turn from a position on has been condensed. */
  ghost predicate Intact(log: seq<Turn>, blocks: seq<Block>, from: nat)
  {
    forall i :: from <= i < |log| && IsText(log[i]) ==> Ord(log, i) >= Dropped(blocks)
  }

  lemma {:induction false} IntactTail(log: seq<Turn>, blocks: seq<Block>, from: nat, n: nat)
    requires from <= n <= |log| && Intact(log, blocks, from)
    ensures Table(log, blocks, n) == Table(log, blocks, from) + Plain(log)[from..n]
  {
    if n == from {
      assert Plain(log)[from..n] == [];
    } else {
      IntactTail(log, blocks, from, n - 1);
      assert Plain(log)[from..n] == Plain(log)[from..n - 1] + [Row(n - 1, log[n - 1])];
    }
  }

  /** The compacted store and the in-memory store return the same window if and only if
      no turn inside the window was condensed and, for "the entire thread", the thread has
      at most 2^30 turns. */
  lemma WindowsAgreeIff(rows: seq<Row>, log: seq<Turn>, blocks: seq<Block>, n: int)
    requires Faithful(rows, log, blocks)
    ensures LastRows(rows, if n <= 0 then NO_LIMIT else n) == PlainWindow(log, n)
       <==> (n > 0 || |log| <= 0x4000_0000) && Intact(log, blocks, |log| - |PlainWindow(log, n)|)
  {
    if (n > 0 || |log| <= NO_LIMIT) && Intact(log, blocks, |log| - |PlainWindow(log, n)|) {
      IntactWindow(rows, log, blocks, n);
    }
    if LastRows(rows, if n <= 0 then NO_LIMIT else n) == PlainWindow(log, n) {
      WindowIntact(rows, log, blocks, n);
    }
  }

  lemma IntactWindow(rows: seq<Row>, log: seq<Turn>, blocks: seq<Block>, n: int)
    requires IsTable(rows, log, blocks) && (n > 0 || |log| <= NO_LIMIT)
    requires Intact(log, blocks, |log| - |PlainWindow(log, n)|)
    ensures LastRows(rows, if n <= 0 then NO_LIMIT else n) == PlainWindow(log, n)
  {
    var from := |log| - |PlainWindow(log, n)|;
    IntactTail(log, blocks, from, |log|);
    var front, tail := Table(log, blocks, from), Plain(log)[from..];
    assert Plain(log)[from..|log|] == tail && rows == front + tail && PlainWindow(log, n) == tail;
    if from == 0 {
      assert front == [] && front + tail == tail;
    } else {
      assert (front + tail)[|front|..] == tail;
    }
  }

  lemma WindowIntact(rows: seq<Row>, log: seq<Turn>, blocks: seq<Block>, n: int)
    requires Faithful(rows, log, blocks)
    requires LastRows(rows, if n <= 0 then NO_LIMIT else n) == PlainWindow(log, n)
    ensures (n > 0 || |log| <= NO_LIMIT) && Intact(log, blocks, |log| - |PlainWindow(log, n)|)
  {
    var limit := if n <= 0 then NO_LIMIT else n;
    LastRowsAreNewest(rows, limit);
    forall i | |log| - |PlainWindow(log, n)| <= i < |log| && IsText(log[i]) ensures Ord(log, i) >= Dropped(blocks) {
      PlainWindowHas(log, n, i);
      LastRowsWithin(rows, limit, Row(i, log[i]));
      FaithfulAt(rows, log, blocks, i);
    }
  }

  lemma PlainWindowHas(log: seq<Turn>, n: int, i: nat)
    requires |log| - |PlainWindow(log, n)| <= i < |log|
    ensures Row(i, log[i]) in PlainWindow(log, n)
  {
    var plain := PlainWindow(log, n);
    assert plain[i - (|log| - |plain|)] == Row(i, log[i]);
  }

  lemma LastRowsWithin(rows: seq<Row>, limit: nat, r: Row)
    requires r in LastRows(rows, limit)
    ensures r in rows
  {
  }
}
