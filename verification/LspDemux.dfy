/** Response demultiplexing of the language-server client (internal/sandbox/lsp.go:
    LSPServer.Request, routeResponse, closeDone) as a machine whose steps are the
    critical sections and channel operations, in any order.

    A request is numbered by nextID and owns one channel of capacity one.
    routeResponse removes the id from pending under the lock and sends to the channel
    after releasing it, so taking and sending are two steps. */
module LspDemux {
  import opened Text

  datatype Message = Message(id: int, payload: string)

  datatype Outcome = Answered(msg: Message) | WriteFailed | CtxDone | ServerExited

  datatype Phase = Writing | Waiting | Returned(outcome: Outcome)

  /** One call of Request: its progress, what its channel holds, and (as the
      specification) the responses routed to it. */
  datatype Call = Call(phase: Phase, held: Option<Message>, routed: seq<Message>)

  /** A response taken off pending and not yet sent to its channel. */
  datatype Delivery = Delivery(id: nat, msg: Message)

  /** Request number id is calls[id - 1]; pending is the key set of the pending map. */
  datatype State = State(closed: bool, pending: set<nat>, calls: seq<Call>, deliveries: seq<Delivery>)

  const INIT := State(false, {}, [], [])

  datatype Step =
    | Begin
    | WriteOk(id: nat)
    | WriteFail(id: nat)
    | Take(msg: Message)
    | Deliver(k: nat)
    | Receive(id: nat)
    | GiveUp(id: nat)
    | NoticeExit(id: nat)
    | CloseDone

  predicate Live(s: State, id: nat) { 1 <= id <= |s.calls| }

  predicate Enabled(s: State, step: Step)
  {
    match step
    case WriteOk(id) => Live(s, id) && s.calls[id - 1].phase.Writing?
    case WriteFail(id) => Live(s, id) && s.calls[id - 1].phase.Writing?
    case Deliver(k) => k < |s.deliveries| && Live(s, s.deliveries[k].id)
    case Receive(id) => Live(s, id) && s.calls[id - 1].phase.Waiting? && s.calls[id - 1].held.Some?
    case GiveUp(id) => Live(s, id) && s.calls[id - 1].phase.Waiting?
    case NoticeExit(id) => Live(s, id) && s.calls[id - 1].phase.Waiting? && s.closed
    case _ => true
  }

  function Update(s: State, id: nat, c: Call): State
    requires Live(s, id)
  {
    s.(calls := s.calls[id - 1 := c])
  }

  function Do(s: State, step: Step): State
    requires Enabled(s, step)
  {
    match step
    case Begin =>
      // a closed server refuses without using up an id
      if s.closed then s
      else s.(calls := s.calls + [Call(Writing, None, [])], pending := s.pending + {|s.calls| + 1})
    case WriteOk(id) => Update(s, id, s.calls[id - 1].(phase := Waiting))
    case WriteFail(id) => Finish(s, id, WriteFailed)
    case Take(msg) =>
      // unknown, answered and cancelled ids are dropped here
      if msg.id < 0 || msg.id !in s.pending || !Live(s, msg.id) then s
      else
        var c := s.calls[msg.id - 1];
        Update(s, msg.id, c.(routed := c.routed + [msg]))
          .(pending := s.pending - {msg.id}, deliveries := s.deliveries + [Delivery(msg.id, msg)])
    case Deliver(k) =>
      var d := s.deliveries[k];
      Update(s, d.id, s.calls[d.id - 1].(held := Some(d.msg))).(deliveries := s.deliveries[..k] + s.deliveries[k + 1..])
    case Receive(id) =>
      var c := s.calls[id - 1];
      Update(s, id, c.(held := None, phase := Returned(Answered(c.held.value))))
    case GiveUp(id) => Finish(s, id, CtxDone)
    case NoticeExit(id) => Finish(s, id, ServerExited)
    case CloseDone => s.(closed := true)
  }

  /** The cleanup closure of Request, then returning. A response routed between the
      select that gives up and this critical section is a Take before it. */
  function Finish(s: State, id: nat, outcome: Outcome): State
    requires Live(s, id)
  {
    Update(s, id, s.calls[id - 1].(phase := Returned(outcome))).(pending := s.pending - {id})
  }

  ghost predicate Runs(s: State, steps: seq<Step>, s': State)
    decreases |steps|
  {
    if steps == [] then s == s' else Enabled(s, steps[0]) && Runs(Do(s, steps[0]), steps[1..], s')
  }

  // ---- The invariant ----

  predicate InFlight(c: Call) { !c.phase.Returned? }

  /** How many deliveries are on their way to a request. */
  function Coming(ds: seq<Delivery>, id: nat): nat
  {
    if ds == [] then 0 else Coming(ds[..|ds| - 1], id) + if ds[|ds| - 1].id == id then 1 else 0
  }

  /** The one response routed to a call is m. */
  predicate Got(c: Call, m: Message) { |c.routed| == 1 && c.routed[0] == m }

  /** One request: at most one response was routed to it, with its own id; it is
      pending exactly while it is in flight and unrouted; a routed response is in
      exactly one place — coming, held, or returned — unless its request gave up. */
  ghost predicate CallOk(c: Call, id: nat, pending: bool, coming: nat)
  {
    && |c.routed| <= 1
    && (|c.routed| == 1 ==> c.routed[0].id == id)
    && (pending <==> InFlight(c) && |c.routed| == 0)
    && coming <= |c.routed|
    && (coming > 0 ==> c.held.None?)
    && (c.held.Some? ==> Got(c, c.held.value))
    && (c.phase.Returned? && c.phase.outcome.Answered? ==> Got(c, c.phase.outcome.msg) && coming == 0)
    && (InFlight(c) && |c.routed| == 1 ==> coming == 1 || c.held.Some?)
  }

  ghost predicate CallsOk(s: State)
  {
    forall id: nat :: Live(s, id) ==> CallOk(s.calls[id - 1], id, id in s.pending, Coming(s.deliveries, id))
  }

  /** A delivery is addressed to a request it was routed to. */
  ghost predicate Addressed(calls: seq<Call>, d: Delivery)
  {
    1 <= d.id <= |calls| && Got(calls[d.id - 1], d.msg)
  }

  ghost predicate Inv(s: State)
  {
    && (forall id :: id in s.pending ==> Live(s, id))
    && (forall k :: 0 <= k < |s.deliveries| ==> Addressed(s.calls, s.deliveries[k]))
    && CallsOk(s)
  }

  lemma ComingSnoc(ds: seq<Delivery>, d: Delivery, id: nat)
    ensures Coming(ds + [d], id) == Coming(ds, id) + if d.id == id then 1 else 0
  {
  }

  lemma {:induction false} ComingConcat(a: seq<Delivery>, b: seq<Delivery>, id: nat)
    ensures Coming(a + b, id) == Coming(a, id) + Coming(b, id)
  {
    if b == [] {
      assert a + b == a;
    } else {
      assert a + b == (a + b[..|b| - 1]) + [b[|b| - 1]];
      ComingConcat(a, b[..|b| - 1], id);
      ComingSnoc(a + b[..|b| - 1], b[|b| - 1], id);
    }
  }

  lemma ComingWithout(ds: seq<Delivery>, k: nat, id: nat)
    requires k < |ds|
    ensures Coming(ds[..k] + ds[k + 1..], id) + (if ds[k].id == id then 1 else 0) == Coming(ds, id)
  {
    assert ds == (ds[..k] + [ds[k]]) + ds[k + 1..];
    ComingConcat(ds[..k] + [ds[k]], ds[k + 1..], id);
    ComingSnoc(ds[..k], ds[k], id);
    ComingConcat(ds[..k], ds[k + 1..], id);
  }

  lemma {:induction false} ComingNone(ds: seq<Delivery>, id: nat)
    requires forall k :: 0 <= k < |ds| ==> ds[k].id != id
    ensures Coming(ds, id) == 0
  {
    if ds == [] {
    } else {
      ComingNone(ds[..|ds| - 1], id);
    }
  }

  /** Rewriting one call, and perhaps taking it off pending, keeps the rest right. */
  lemma OneCall(s: State, id: nat, c: Call, pending: set<nat>)
    requires Inv(s) && Live(s, id) && c.routed == s.calls[id - 1].routed
    requires pending == s.pending || pending == s.pending - {id}
    requires CallOk(c, id, id in pending, Coming(s.deliveries, id))
    ensures Inv(Update(s, id, c).(pending := pending))
  {
    var s' := Update(s, id, c).(pending := pending);
    forall j: nat | Live(s', j) ensures CallOk(s'.calls[j - 1], j, j in s'.pending, Coming(s'.deliveries, j)) {
      if j != id { assert CallOk(s.calls[j - 1], j, j in s.pending, Coming(s.deliveries, j)); }
    }
    forall k | 0 <= k < |s'.deliveries| ensures Addressed(s'.calls, s'.deliveries[k]) {
      assert Addressed(s.calls, s.deliveries[k]);
    }
  }

  lemma FinishKeepsInv(s: State, id: nat, outcome: Outcome)
    requires Inv(s) && Live(s, id) && !outcome.Answered?
    ensures Inv(Finish(s, id, outcome))
  {
  }

  lemma ReceiveKeepsInv(s: State, id: nat)
    requires Inv(s) && Enabled(s, Receive(id))
    ensures Inv(Do(s, Receive(id)))
  {
    assert CallOk(s.calls[id - 1], id, id in s.pending, Coming(s.deliveries, id));
    var c := s.calls[id - 1];
    OneCall(s, id, c.(held := None, phase := Returned(Answered(c.held.value))), s.pending);
  }

  lemma BeginKeepsInv(s: State)
    requires Inv(s) && !s.closed
    ensures Inv(Do(s, Begin))
  {
    var s' := Do(s, Begin);
    var fresh' := |s.calls| + 1;
    ComingNone(s.deliveries, fresh');
    forall j: nat | Live(s', j) ensures CallOk(s'.calls[j - 1], j, j in s'.pending, Coming(s'.deliveries, j)) {
      if j != fresh' { assert CallOk(s.calls[j - 1], j, j in s.pending, Coming(s.deliveries, j)); }
    }
  }

  lemma TakeKeepsCalls(s: State, msg: Message, j: nat)
    requires Inv(s) && msg.id >= 0 && msg.id in s.pending && Live(s, j)
    ensures var s' := Do(s, Take(msg)); CallOk(s'.calls[j - 1], j, j in s'.pending, Coming(s'.deliveries, j))
  {
  }

  lemma TakeKeepsInv(s: State, msg: Message)
    requires Inv(s) && msg.id >= 0 && msg.id in s.pending
    ensures Inv(Do(s, Take(msg)))
  {
    var s' := Do(s, Take(msg));
    assert CallOk(s.calls[msg.id - 1], msg.id, msg.id in s.pending, Coming(s.deliveries, msg.id));
    forall j: nat | Live(s', j) ensures CallOk(s'.calls[j - 1], j, j in s'.pending, Coming(s'.deliveries, j)) {
      TakeKeepsCalls(s, msg, j);
    }
    forall k | 0 <= k < |s'.deliveries| ensures Addressed(s'.calls, s'.deliveries[k]) {
      if k < |s.deliveries| { assert Addressed(s.calls, s.deliveries[k]); }
    }
  }

  lemma DeliverKeepsCalls(s: State, k: nat, j: nat)
    requires Inv(s) && Enabled(s, Deliver(k)) && Live(s, j)
    ensures var s' := Do(s, Deliver(k)); CallOk(s'.calls[j - 1], j, j in s'.pending, Coming(s'.deliveries, j))
  {
    ComingWithout(s.deliveries, k, j);
    assert CallOk(s.calls[j - 1], j, j in s.pending, Coming(s.deliveries, j));
    assert Addressed(s.calls, s.deliveries[k]);
  }

  lemma DeliverKeepsInv(s: State, k: nat)
    requires Inv(s) && Enabled(s, Deliver(k))
    ensures Inv(Do(s, Deliver(k)))
  {
    var s' := Do(s, Deliver(k));
    forall j: nat | Live(s', j) ensures CallOk(s'.calls[j - 1], j, j in s'.pending, Coming(s'.deliveries, j)) {
      DeliverKeepsCalls(s, k, j);
    }
    forall m | 0 <= m < |s'.deliveries| ensures Addressed(s'.calls, s'.deliveries[m]) {
      assert Addressed(s.calls, s.deliveries[if m < k then m else m + 1]);
    }
  }

  lemma DoKeepsInv(s: State, step: Step)
    requires Inv(s) && Enabled(s, step)
    ensures Inv(Do(s, step))
  {
    match step
    case Begin => if !s.closed { BeginKeepsInv(s); }
    case Take(msg) => if msg.id >= 0 && msg.id in s.pending { TakeKeepsInv(s, msg); }
    case Deliver(k) => DeliverKeepsInv(s, k);
    case CloseDone =>
    case WriteOk(id) =>
      assert CallOk(s.calls[id - 1], id, id in s.pending, Coming(s.deliveries, id));
      OneCall(s, id, s.calls[id - 1].(phase := Waiting), s.pending);
    case WriteFail(id) => FinishKeepsInv(s, id, WriteFailed);
    case Receive(id) => ReceiveKeepsInv(s, id);
    case GiveUp(id) => FinishKeepsInv(s, id, CtxDone);
    case NoticeExit(id) => FinishKeepsInv(s, id, ServerExited);
  }

  lemma {:induction false} RunKeepsInv(s: State, steps: seq<Step>, s': State)
    requires Inv(s) && Runs(s, steps, s')
    ensures Inv(s')
    decreases |steps|
  {
    if steps == [] {
    } else {
      DoKeepsInv(s, steps[0]);
      RunKeepsInv(Do(s, steps[0]), steps[1..], s');
    }
  }

  // ---- What every run promises ----

  /** Each request gets at most one response, always its own; and it is in the pending
      map exactly while it is in flight and unanswered. */
  lemma OneResponseEach(steps: seq<Step>, s: State, id: nat)
    requires Runs(INIT, steps, s) && Live(s, id)
    ensures |s.calls[id - 1].routed| <= 1
    ensures s.calls[id - 1].phase.Returned? && s.calls[id - 1].phase.outcome.Answered? ==>
      s.calls[id - 1].phase.outcome.msg.id == id && Got(s.calls[id - 1], s.calls[id - 1].phase.outcome.msg)
    ensures id in s.pending <==> InFlight(s.calls[id - 1]) && |s.calls[id - 1].routed| == 0
  {
    RunKeepsInv(INIT, steps, s);
    assert CallOk(s.calls[id - 1], id, id in s.pending, Coming(s.deliveries, id));
  }

  /** The one-slot channel send never blocks: whenever a response is about to be sent,
      its channel is empty. */
  lemma SendNeverBlocks(steps: seq<Step>, s: State, k: nat)
    requires Runs(INIT, steps, s) && k < |s.deliveries|
    ensures Live(s, s.deliveries[k].id) && s.calls[s.deliveries[k].id - 1].held.None?
  {
    RunKeepsInv(INIT, steps, s);
    var id := s.deliveries[k].id;
    ComingWithout(s.deliveries, k, id);
    assert CallOk(s.calls[id - 1], id, id in s.pending, Coming(s.deliveries, id));
  }

  /** No response is lost while its request waits: once routed it is on its way or in
      the channel. */
  lemma RoutedReachesWaiter(steps: seq<Step>, s: State, id: nat)
    requires Runs(INIT, steps, s) && Live(s, id) && InFlight(s.calls[id - 1]) && |s.calls[id - 1].routed| > 0
    ensures Coming(s.deliveries, id) == 1 || s.calls[id - 1].held == Some(s.calls[id - 1].routed[0])
  {
    RunKeepsInv(INIT, steps, s);
    assert CallOk(s.calls[id - 1], id, id in s.pending, Coming(s.deliveries, id));
  }

  /** Ids are never reused, a returned call never changes its outcome, and what was
      routed stays routed. */
  lemma {:induction false} CallsArePermanent(s: State, steps: seq<Step>, s': State, id: nat)
    requires Inv(s) && Runs(s, steps, s') && Live(s, id)
    ensures Live(s', id) && s.calls[id - 1].routed <= s'.calls[id - 1].routed
    ensures s.calls[id - 1].phase.Returned? ==> s'.calls[id - 1].phase == s.calls[id - 1].phase && id !in s'.pending
    decreases |steps|
  {
    if steps == [] {
      assert CallOk(s.calls[id - 1], id, id in s.pending, Coming(s.deliveries, id));
    } else {
      DoKeepsInv(s, steps[0]);
      StepIsPermanent(s, steps[0], id);
      CallsArePermanent(Do(s, steps[0]), steps[1..], s', id);
    }
  }

  lemma StepIsPermanent(s: State, step: Step, id: nat)
    requires Inv(s) && Enabled(s, step) && Live(s, id)
    ensures Live(Do(s, step), id) && s.calls[id - 1].routed <= Do(s, step).calls[id - 1].routed
    ensures s.calls[id - 1].phase.Returned? ==> Do(s, step).calls[id - 1].phase == s.calls[id - 1].phase
  {
  }

  /** A response gets through: a request on an open server is written, the response with its
      id is taken, sent and received, and the request returns exactly it. */
  lemma ResponseGetsThrough(s: State, payload: string)
    requires Inv(s) && !s.closed
    ensures var id := |s.calls| + 1; var msg := Message(id, payload);
      var begun := Do(s, Begin);
      && Enabled(begun, WriteOk(id)) && id in begun.pending
      && var sent := Do(begun, WriteOk(id));
      var taken := Do(sent, Take(msg));
      && taken.deliveries == s.deliveries + [Delivery(id, msg)] && taken.pending == s.pending
      && Enabled(taken, Deliver(|s.deliveries|))
      && var held := Do(taken, Deliver(|s.deliveries|));
      && held.deliveries == s.deliveries && Enabled(held, Receive(id))
      && Do(held, Receive(id)).calls[id - 1].phase == Returned(Answered(msg))
  {
    assert forall k :: k in s.pending ==> Live(s, k);
  }

  /** Once closed, no request begins and every waiting one can return. */
  lemma ClosedEndsWaiting(s: State, id: nat)
    requires Inv(s) && Live(s, id) && s.calls[id - 1].phase.Waiting?
    ensures var closed := Do(s, CloseDone);
      && Do(closed, Begin) == closed && Enabled(closed, NoticeExit(id))
      && Do(closed, NoticeExit(id)).calls[id - 1].phase == Returned(ServerExited)
      && id !in Do(closed, NoticeExit(id)).pending
  {
  }

  // ---- The object ----

  /** LSPServer's demultiplexer: each method is one critical section or channel operation. */
  class LSPServer {
    var nextID: nat
    var closed: bool
    var pending: set<nat>
    var calls: seq<Call>
    var deliveries: seq<Delivery>

    ghost predicate Valid() reads this { nextID == |calls| && Inv(Abs()) }

    ghost function Abs(): State reads this { State(closed, pending, calls, deliveries) }

    constructor ()
      ensures Valid() && Abs() == INIT
    {
      nextID, closed, pending, calls, deliveries := 0, false, {}, [], [];
    }

    /** Request, up to its write. */
    method BeginRequest() returns (id: Option<nat>)
      requires Valid()
      modifies this
      ensures Valid() && Abs() == Do(old(Abs()), Begin)
      ensures id.None? <==> old(closed)
      ensures id.Some? ==> id.value == old(nextID) + 1 && !Live(old(Abs()), id.value) && id.value in pending
    {
      DoKeepsInv(Abs(), Begin);
      if closed { return None; }
      nextID := nextID + 1;
      calls := calls + [Call(Writing, None, [])];
      pending := pending + {nextID};
      id := Some(nextID);
    }

    /** routeResponse under the lock. */
    method TakePending(msg: Message) returns (found: bool)
      requires Valid()
      modifies this`pending, this`calls, this`deliveries
      ensures Valid() && Abs() == Do(old(Abs()), Take(msg))
      ensures found <==> msg.id >= 0 && msg.id in old(pending)
      ensures pending == old(pending) - (if found then {msg.id} else {})
      ensures deliveries == old(deliveries) + if found then [Delivery(msg.id, msg)] else []
    {
      DoKeepsInv(Abs(), Take(msg));
      found := msg.id >= 0 && msg.id in pending;
      if found {
        pending := pending - {msg.id};
        calls := calls[msg.id - 1 := calls[msg.id - 1].(routed := calls[msg.id - 1].routed + [msg])];
        deliveries := deliveries + [Delivery(msg.id, msg)];
      }
    }

    /** routeResponse's channel send; the channel is empty. */
    method SendToWaiter(k: nat)
      requires Valid() && k < |deliveries|
      modifies this`calls, this`deliveries
      ensures old(deliveries[k].id >= 1 && deliveries[k].id <= |calls| && calls[deliveries[k].id - 1].held.None?)
      ensures Valid() && Abs() == Do(old(Abs()), Deliver(k))
    {
      var d := deliveries[k];
      ComingWithout(deliveries, k, d.id);
      assert CallOk(calls[d.id - 1], d.id, d.id in pending, Coming(deliveries, d.id));
      ghost var after := Do(Abs(), Deliver(k));
      DeliverKeepsInv(Abs(), k);
      calls := calls[d.id - 1 := calls[d.id - 1].(held := Some(d.msg))];
      deliveries := deliveries[..k] + deliveries[k + 1..];
      assert Abs() == after;
    }

    /** The select arm that receives from the channel. */
    method ReceiveAnswer(id: nat) returns (msg: Message)
      requires Valid() && Enabled(Abs(), Receive(id))
      modifies this`calls
      ensures Valid() && Abs() == Do(old(Abs()), Receive(id))
      ensures msg.id == id && calls[id - 1].phase == Returned(Answered(msg)) && old(calls[id - 1].held) == Some(msg)
    {
      ReceiveKeepsInv(Abs(), id);
      var c := calls[id - 1];
      assert CallOk(c, id, id in pending, Coming(deliveries, id));
      msg := c.held.value;
      calls := calls[id - 1 := c.(held := None, phase := Returned(Answered(msg)))];
    }

    /** The failed write and the two select arms that give up: cleanup, then an error. */
    method Cleanup(id: nat, outcome: Outcome)
      requires Valid() && Live(Abs(), id) && InFlight(calls[id - 1]) && !outcome.Answered?
      modifies this`calls, this`pending
      ensures Valid() && Abs() == Finish(old(Abs()), id, outcome)
      ensures id !in pending && calls[id - 1].phase == Returned(outcome)
    {
      FinishKeepsInv(Abs(), id, outcome);
      pending := pending - {id};
      calls := calls[id - 1 := calls[id - 1].(phase := Returned(outcome))];
    }

    method MarkClosed()
      requires Valid()
      modifies this`closed
      ensures Valid() && Abs() == Do(old(Abs()), CloseDone) && closed
    {
      DoKeepsInv(Abs(), CloseDone);
      closed := true;
    }
  }
}
