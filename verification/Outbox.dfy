/** Offline outbox of the reconnecting client (internal/wireclient/session.go: Send,
    Close, drainOutbox and the Run loop), as a machine whose steps are the critical
    sections and the writes of the loop, interleaved in any way with Send and Close. */
module Outbox {
  datatype Envelope = Envelope(isIntent: bool, body: string)

  /** How a queued intent leaves the queue. */
  datatype Exit = Written(env: Envelope) | Dropped(env: Envelope) | Abandoned(env: Envelope)

  /** Where the Run loop is. */
  datatype Phase = Idle | Connecting | Dialed | Opened | Draining | Reading | Ending | Unhooked | Stopped

  /** connSet is conn != nil and open is status == open. pending is what a drain has taken
      and not yet written. accepted and exits are the history of the queue. */
  datatype State = State(
    closed: bool, connSet: bool, open: bool, outbox: seq<Envelope>,
    phase: Phase, pending: seq<Envelope>,
    accepted: seq<Envelope>, exits: seq<Exit>)

  const INIT := State(false, false, false, [], Idle, [], [], [])

  const DEFAULT_CAP: nat := 64

  /** NewSession's cap: the configured one, or 64. */
  function CapOf(configured: int): (cap: nat)
    ensures cap >= 1
    ensures configured > 0 ==> cap == configured
    ensures configured <= 0 ==> cap == 64
  {
    if configured <= 0 then DEFAULT_CAP else configured
  }

  datatype Step =
    | Send(env: Envelope)
    | Close
    | LoopTop
    | Cancelled
    | DialDone(dialed: bool)
    | Unauthorized
    | HelloDone(welcomed: bool)
    | TakeOutbox
    | DrainWrite(written: bool)
    | DrainDone
    | ReadEnds
    | DropConn
    | MarkClosed

  predicate Enabled(s: State, step: Step)
  {
    match step
    case Send(_) => true
    case Close => true
    case LoopTop => s.phase == Idle
    case Cancelled => s.phase == Idle
    case DialDone(_) => s.phase == Connecting
    case Unauthorized => s.phase == Connecting
    case HelloDone(_) => s.phase == Dialed
    case TakeOutbox => s.phase == Opened
    case DrainWrite(_) => s.phase == Draining && s.pending != []
    case DrainDone => s.phase == Draining && s.pending == []
    case ReadEnds => s.phase == Reading
    case DropConn => s.phase == Ending
    case MarkClosed => s.phase == Unhooked
  }

  /** Whether Send queues the envelope. */
  predicate Queues(s: State, env: Envelope)
  {
    !s.closed && !(s.connSet && s.open) && env.isIntent
  }

  /** Queueing, with the oldest dropped at a full queue. */
  function Enqueue(s: State, cap: nat, env: Envelope): State
  {
    if |s.outbox| >= cap && s.outbox != [] then
      s.(outbox := s.outbox[1..] + [env], accepted := s.accepted + [env], exits := s.exits + [Dropped(s.outbox[0])])
    else
      s.(outbox := s.outbox + [env], accepted := s.accepted + [env])
  }

  function Give(envs: seq<Envelope>): (r: seq<Exit>)
    ensures |r| == |envs| && forall i :: 0 <= i < |r| ==> r[i] == Abandoned(envs[i])
  {
    seq(|envs|, i requires 0 <= i < |envs| => Abandoned(envs[i]))
  }

  function Do(s: State, cap: nat, step: Step): State
    requires Enabled(s, step)
  {
    match step
    case Send(env) => if Queues(s, env) then Enqueue(s, cap, env) else s
    case Close => s.(closed := true, connSet := false)
    case LoopTop => if s.closed then s.(phase := Stopped) else s.(phase := Connecting)
    case Cancelled => s.(phase := Stopped)
    case Unauthorized => s.(phase := Stopped)
    case DialDone(dialed) => if dialed then s.(phase := Dialed, connSet := true) else s.(phase := Idle)
    case HelloDone(welcomed) => if welcomed then s.(phase := Opened, open := true) else s.(phase := Ending)
    case TakeOutbox =>
      // a connection that Close already took away ends the drain before its first write
      if s.connSet then s.(phase := Draining, pending := s.outbox, outbox := [])
      else s.(phase := Ending, outbox := [], exits := s.exits + Give(s.outbox))
    case DrainWrite(written) =>
      if written then s.(pending := s.pending[1..], exits := s.exits + [Written(s.pending[0])])
      else s.(phase := Ending, outbox := s.pending + s.outbox, pending := [])
    case DrainDone => s.(phase := Reading)
    case ReadEnds => s.(phase := Ending)
    case DropConn => s.(phase := Unhooked, connSet := false)
    case MarkClosed => s.(phase := Idle, open := false)
  }

  ghost predicate Runs(s: State, cap: nat, steps: seq<Step>, s': State)
    decreases |steps|
  {
    if steps == [] then s == s' else Enabled(s, steps[0]) && Runs(Do(s, cap, steps[0]), cap, steps[1..], s')
  }

  // ---- The invariant ----

  function Envs(exits: seq<Exit>): (r: seq<Envelope>)
    ensures |r| == |exits| && forall i :: 0 <= i < |r| ==> r[i] == exits[i].env
  {
    seq(|exits|, i requires 0 <= i < |exits| => exits[i].env)
  }

  /** Everything accepted left the queue at the front, is in a drain, or is queued, in
      the order it came. */
  ghost predicate Conserved(s: State)
  {
    s.accepted == Envs(s.exits) + s.pending + s.outbox
  }

  ghost predicate ExitsOk(s: State, cap: nat)
  {
    forall k :: 0 <= k < |s.exits| ==> ExitOk(s.exits[k], k, |s.accepted|, cap, s.closed)
  }

  /** An intent is dropped only when cap newer ones were accepted, and abandoned only
      after Close. */
  ghost predicate ExitOk(e: Exit, k: nat, accepted: nat, cap: nat, closed: bool)
  {
    (e.Dropped? ==> k + cap < accepted) && (e.Abandoned? ==> closed)
  }

  predicate Connected(p: Phase) { p == Dialed || p == Opened || p == Draining || p == Reading }

  /** How the loop's position ties down the shared fields. */
  ghost predicate Shape(s: State)
  {
    && (s.pending != [] ==> s.phase == Draining)
    && (s.phase == Draining ==> s.outbox == [])
    && (s.phase == Opened || s.phase == Draining || s.phase == Reading ==> s.open)
    && (Connected(s.phase) && !s.closed ==> s.connSet)
  }

  ghost predicate Inv(s: State, cap: nat)
  {
    cap >= 1 && |s.pending| + |s.outbox| <= cap && Conserved(s) && Shape(s) && ExitsOk(s, cap)
  }

  lemma EnvsSnoc(exits: seq<Exit>, e: Exit)
    ensures Envs(exits + [e]) == Envs(exits) + [e.env]
  {
  }

  lemma QueueKeepsInv(s: State, cap: nat, env: Envelope)
    requires Inv(s, cap) && Queues(s, env)
    ensures Inv(Enqueue(s, cap, env), cap)
  {
    var s' := Enqueue(s, cap, env);
    assert s.pending == [];
    if |s.outbox| >= cap {
      EnvsSnoc(s.exits, Dropped(s.outbox[0]));
      assert s.outbox == [s.outbox[0]] + s.outbox[1..];
      assert s'.accepted == Envs(s'.exits) + s'.pending + s'.outbox;
    } else {
      assert s'.accepted == Envs(s'.exits) + s'.pending + s'.outbox;
    }
    forall k | 0 <= k < |s'.exits| ensures ExitOk(s'.exits[k], k, |s'.accepted|, cap, s'.closed) {
      if k < |s.exits| { assert ExitOk(s.exits[k], k, |s.accepted|, cap, s.closed); }
    }
  }

  lemma TakeKeepsInv(s: State, cap: nat)
    requires Inv(s, cap) && Enabled(s, TakeOutbox)
    ensures Inv(Do(s, cap, TakeOutbox), cap)
  {
  }

  lemma DrainKeepsInv(s: State, cap: nat, written: bool)
    requires Inv(s, cap) && Enabled(s, DrainWrite(written))
    ensures Inv(Do(s, cap, DrainWrite(written)), cap)
  {
  }

  lemma DoKeepsInv(s: State, cap: nat, step: Step)
    requires Inv(s, cap) && Enabled(s, step)
    ensures Inv(Do(s, cap, step), cap)
  {
    match step
    case Send(env) => if Queues(s, env) { QueueKeepsInv(s, cap, env); }
    case TakeOutbox => TakeKeepsInv(s, cap);
    case DrainWrite(written) => DrainKeepsInv(s, cap, written);
    case Close =>
      forall k | 0 <= k < |s.exits| ensures ExitOk(s.exits[k], k, |s.accepted|, cap, true) {
        assert ExitOk(s.exits[k], k, |s.accepted|, cap, s.closed);
      }
    case _ =>
  }

  lemma {:induction false} RunKeepsInv(s: State, cap: nat, steps: seq<Step>, s': State)
    requires Inv(s, cap) && Runs(s, cap, steps, s')
    ensures Inv(s', cap)
    decreases |steps|
  {
    if steps == [] {
    } else {
      DoKeepsInv(s, cap, steps[0]);
      RunKeepsInv(Do(s, cap, steps[0]), cap, steps[1..], s');
    }
  }

  // ---- What every run promises ----

  /** In every run, the k-th intent accepted is the k-th to leave the queue: written at
      most once, in order, across any number of failed drains; what has not left is in a
      drain or queued, within the cap; nothing is abandoned before Close; and nothing is
      dropped unless cap newer intents were accepted after it. */
  lemma OutboxConserves(configured: int, steps: seq<Step>, s: State)
    requires Runs(INIT, CapOf(configured), steps, s)
    ensures s.accepted == Envs(s.exits) + s.pending + s.outbox
    ensures |s.pending| + |s.outbox| <= CapOf(configured)
    ensures forall k :: 0 <= k < |s.exits| ==> s.exits[k].env == s.accepted[k]
    ensures forall k :: 0 <= k < |s.exits| && s.exits[k].Abandoned? ==> s.closed
    ensures forall k :: 0 <= k < |s.exits| && s.exits[k].Dropped? ==> k + CapOf(configured) < |s.accepted|
  {
    var cap := CapOf(configured);
    assert INIT.accepted == Envs(INIT.exits) + INIT.pending + INIT.outbox;
    RunKeepsInv(INIT, cap, steps, s);
    forall k | 0 <= k < |s.exits| ensures s.exits[k].env == s.accepted[k] { assert s.accepted[k] == Envs(s.exits)[k]; }
    forall k | 0 <= k < |s.exits|
      ensures (s.exits[k].Abandoned? ==> s.closed) && (s.exits[k].Dropped? ==> k + cap < |s.accepted|)
    {
      assert ExitOk(s.exits[k], k, |s.accepted|, cap, s.closed);
    }
  }

  /** While a drain runs Send queues nothing, so the re-queue after a failed write finds
      an empty outbox: the newer items it would put behind the leftovers never exist. */
  lemma RequeueFindsEmpty(configured: int, steps: seq<Step>, s: State)
    requires Runs(INIT, CapOf(configured), steps, s) && s.phase == Draining
    ensures s.outbox == [] && forall env :: !Queues(s, env)
  {
    assert INIT.accepted == Envs(INIT.exits) + INIT.pending + INIT.outbox;
    RunKeepsInv(INIT, CapOf(configured), steps, s);
  }

  lemma {:induction false} RunsSnoc(s: State, cap: nat, steps: seq<Step>, m: State, step: Step)
    requires Runs(s, cap, steps, m) && Enabled(m, step)
    ensures Runs(s, cap, steps + [step], Do(m, cap, step))
    decreases |steps|
  {
    if steps == [] {
      assert Runs(Do(s, cap, step), cap, [step][1..], Do(m, cap, step));
    } else {
      assert (steps + [step])[1..] == steps[1..] + [step];
      RunsSnoc(Do(s, cap, steps[0]), cap, steps[1..], m, step);
    }
  }

  /** A loop that dials and is welcomed comes to its drain with the queue as it was. */
  lemma ReconnectReachesDrain(s: State, cap: nat)
    requires Inv(s, cap) && s.phase == Idle && !s.closed
    ensures Enabled(s, LoopTop) && var s1 := Do(s, cap, LoopTop);
      Enabled(s1, DialDone(true)) && var s2 := Do(s1, cap, DialDone(true));
      Enabled(s2, HelloDone(true)) && var s3 := Do(s2, cap, HelloDone(true));
      && s3.phase == Opened && s3.connSet && s3.open && !s3.closed && Enabled(s3, TakeOutbox)
      && s3.outbox == s.outbox && s3.accepted == s.accepted && s3.exits == s.exits
  {
  }

  /** A lost connection brings the loop back to dialling, and intents are queued again. */
  lemma LostConnectionQueues(s: State, cap: nat, env: Envelope)
    requires Inv(s, cap) && s.phase == Reading && !s.closed && env.isIntent
    ensures var s1 := Do(s, cap, ReadEnds);
      Enabled(s1, DropConn) && var s2 := Do(s1, cap, DropConn);
      && Queues(s2, env) && Enabled(s2, MarkClosed) && Do(s2, cap, MarkClosed).phase == Idle
      && var s3 := Do(s2, cap, Send(env));
      s3.accepted == s.accepted + [env] && s3.outbox != [] && s3.outbox[|s3.outbox| - 1] == env
  {
  }

  // ---- An undisturbed drain ----

  /** From s0 to s exactly the first n queued intents were written, in order. */
  ghost predicate WroteFirst(s0: State, s: State, n: nat)
  {
    && n <= |s0.outbox| && s.accepted == s0.accepted && |s.exits| == |s0.exits| + n
    && forall k :: 0 <= k < n ==> s.exits[|s0.exits| + k] == Written(s0.outbox[k])
  }

  /** What is left of the queue of s0 after its first n. */
  ghost predicate Rest(s0: State, n: nat, left: seq<Envelope>)
  {
    n <= |s0.outbox| && left == s0.outbox[n..]
  }

  ghost predicate DrainedTo(s0: State, cap: nat, steps: seq<Step>, s: State, i: nat)
  {
    && Inv(s, cap) && s.phase == Draining && s.outbox == [] && Rest(s0, i, s.pending)
    && WroteFirst(s0, s, i) && Runs(s0, cap, steps, s)
  }

  ghost predicate RequeuedAt(s0: State, cap: nat, steps: seq<Step>, s: State, i: nat)
  {
    && Inv(s, cap) && s.phase == Ending && s.pending == [] && Rest(s0, i, s.outbox)
    && WroteFirst(s0, s, i) && Runs(s0, cap, steps, s)
  }

  ghost predicate DrainedAll(s0: State, cap: nat, steps: seq<Step>, s: State)
  {
    && Inv(s, cap) && s.phase == Reading && s.pending == [] && s.outbox == []
    && WroteFirst(s0, s, |s0.outbox|) && Runs(s0, cap, steps, s)
  }

  /** The first n writes all succeed. */
  ghost predicate FirstSucceed(writes: nat -> bool, n: nat)
  {
    forall k: nat :: k < n ==> writes(k)
  }

  lemma DrainStarts(s0: State, cap: nat)
    requires Inv(s0, cap) && s0.phase == Opened && s0.connSet
    ensures DrainedTo(s0, cap, [TakeOutbox], Do(s0, cap, TakeOutbox), 0)
  {
  }

  lemma DrainStep(s0: State, cap: nat, steps: seq<Step>, s: State, i: nat, written: bool)
    requires DrainedTo(s0, cap, steps, s, i) && i < |s0.outbox|
    ensures s.pending != [] && s.pending[0] == s0.outbox[i]
    ensures var s' := Do(s, cap, DrainWrite(written));
      if written then
        DrainedTo(s0, cap, steps + [DrainWrite(written)], s', i + 1)
      else
        RequeuedAt(s0, cap, steps + [DrainWrite(written)], s', i)
  {
    RunsSnoc(s0, cap, steps, s, DrainWrite(written));
    DrainKeepsInv(s, cap, written);
    assert s.pending + [] == s.pending;
  }

  lemma DrainStops(s0: State, cap: nat, steps: seq<Step>, s: State)
    requires DrainedTo(s0, cap, steps, s, |s0.outbox|)
    ensures s.pending == [] && DrainedAll(s0, cap, steps + [DrainDone], Do(s, cap, DrainDone))
  {
    RunsSnoc(s0, cap, steps, s, DrainDone);
    DoKeepsInv(s, cap, DrainDone);
  }

  // ---- The object ----

  datatype SendResult = Sent | WriteError | Queued | ErrOffline | ErrClosed

  class Session {
    const cap: nat
    var closed: bool
    var connSet: bool
    var open: bool
    var outbox: seq<Envelope>
    ghost var phase: Phase
    ghost var pending: seq<Envelope>
    ghost var accepted: seq<Envelope>
    ghost var exits: seq<Exit>

    ghost function Abs(): State reads this
    {
      State(closed, connSet, open, outbox, phase, pending, accepted, exits)
    }

    ghost predicate Valid() reads this { Inv(Abs(), cap) }

    constructor (configured: int)
      ensures Valid() && Abs() == INIT && cap == CapOf(configured)
    {
      cap := CapOf(configured);
      closed, connSet, open, outbox := false, false, false, [];
      phase, pending, accepted, exits := Idle, [], [], [];
      new;
      assert INIT.accepted == Envs(INIT.exits) + INIT.pending + INIT.outbox;
    }

    method SendEnvelope(env: Envelope, wireOk: bool) returns (r: SendResult)
      requires Valid()
      modifies this
      ensures Valid() && Abs() == Do(old(Abs()), cap, Send(env))
      ensures r == Queued <==> Queues(old(Abs()), env)
      ensures r == Queued ==> |outbox| > 0 && outbox[|outbox| - 1] == env
      ensures r == ErrClosed <==> old(closed)
      ensures r == Sent <==> old(!closed && connSet && open) && wireOk
      ensures r == WriteError <==> old(!closed && connSet && open) && !wireOk
    {
      DoKeepsInv(Abs(), cap, Send(env));
      if closed { return ErrClosed; }
      if connSet && open { return if wireOk then Sent else WriteError; }
      if !env.isIntent { return ErrOffline; }
      if |outbox| >= cap {
        exits := exits + [Dropped(outbox[0])];
        outbox := outbox[1..];
      }
      outbox := outbox + [env];
      accepted := accepted + [env];
      return Queued;
    }

    /** drainOutbox with nothing else running: the i-th write succeeds when writes(i). It
        is a run of the machine that writes a prefix of the queue in order and leaves
        exactly the rest queued; with every write succeeding nothing is left. */
    method DrainOutbox(writes: nat -> bool) returns (ok: bool, ghost n: nat, ghost steps: seq<Step>)
      requires Valid() && phase == Opened && connSet
      modifies this
      ensures FirstSucceed(writes, n)
      ensures ok ==> n == |old(outbox)| && DrainedAll(old(Abs()), cap, steps, Abs())
      ensures !ok ==> n < |old(outbox)| && !writes(n) && RequeuedAt(old(Abs()), cap, steps, Abs(), n)
    {
      ghost var s0 := Abs();
      var taken := outbox;
      DrainStarts(s0, cap);
      pending, outbox, phase := outbox, [], Draining;
      assert Abs() == Do(s0, cap, TakeOutbox);
      ok, n, steps := WriteAll(s0, taken, writes);
      if ok {
        ghost var s1 := Abs();
        DrainStops(s0, cap, steps, s1);
        steps := steps + [DrainDone];
        phase := Reading;
        assert Abs() == Do(s1, cap, DrainDone);
      }
    }

    method WriteAll(ghost s0: State, taken: seq<Envelope>, writes: nat -> bool)
      returns (ok: bool, ghost n: nat, ghost steps: seq<Step>)
      requires DrainedTo(s0, cap, [TakeOutbox], Abs(), 0) && taken == s0.outbox
      modifies this
      ensures ok ==> n == |taken| && DrainedTo(s0, cap, steps, Abs(), n)
      ensures !ok ==> n < |taken| && !writes(n) && RequeuedAt(s0, cap, steps, Abs(), n)
      ensures FirstSucceed(writes, n)
    {
      steps, n, ok := [TakeOutbox], 0, true;
      for i := 0 to |taken|
        invariant n == i && ok && DrainedTo(s0, cap, steps, Abs(), i)
        invariant FirstSucceed(writes, i)
      {
        DrainStep(s0, cap, steps, Abs(), i, writes(i));
        steps := steps + [DrainWrite(writes(i))];
        WriteOne(taken, i, writes(i));
        if !writes(i) { return false, n, steps; }
        n := n + 1;
      }
    }

    /** One write of the drain: on failure the rest goes back in front of the queue. */
    method WriteOne(taken: seq<Envelope>, i: nat, written: bool)
      requires i < |taken| && phase == Draining && pending == taken[i..]
      modifies this
      ensures Abs() == Do(old(Abs()), cap, DrainWrite(written))
    {
      if written {
        exits := exits + [Written(taken[i])];
        pending := pending[1..];
      } else {
        outbox := taken[i..] + outbox;
        pending, phase := [], Ending;
      }
    }

    method CloseSession()
      requires Valid()
      modifies this
      ensures Valid() && Abs() == Do(old(Abs()), cap, Close)
    {
      DoKeepsInv(Abs(), cap, Close);
      closed, connSet := true, false;
    }
  }
}
