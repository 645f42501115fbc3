/** One user.intent turn (internal/wsserver/middleware.go: runIntent, consumeStage,
    runToolCall, requestApproval, accumulateUsage; internal/middleware/recovery.go).

    The translator, the dispatcher and the human are the environment: a turn is run
    against a script of translator stages, each carrying what its tool call would
    meet.  A script may stop anywhere, so a theorem about every script is a theorem
    about every point of every turn. */
module TurnLoop {
  import opened Text
  import Approver

  datatype Usage = Usage(prompt: int, candidates: int, total: int)

  const ZERO := Usage(0, 0, 0)

  function Add(a: Usage, b: Usage): Usage
  {
    Usage(a.prompt + b.prompt, a.candidates + b.candidates, a.total + b.total)
  }

  datatype ToolCall = ToolCall(id: string, tool: string, args: string)
  datatype Final = Final(text: string, finish: string, usage: Usage)

  /** AssistantEvent, with the fields in the order consumeStage tests them. */
  datatype Event = Event(
    err: Option<string>, text: string, thinking: string, usage: Option<Usage>, call: Option<ToolCall>,
    final: Option<Final>)

  /** The SandboxErr* codes; NoCode is the empty string. */
  datatype Code = NoCode | Timeout | Oom | ImagePull | Unavailable | BadRequest | Internal | Canceled | Unauthorized

  /** What a tool call meets once it starts: whether its preview can be built, the
      approval id minted for it and the answer, and the classified exit of the
      dispatched work (the sandbox, the worker pool, a daemon or a language server),
      one for each exit chunk its stream carries. */
  datatype CallEnv = CallEnv(previewOk: bool, approvalId: string, answer: Approver.Answer, exits: seq<Exit>)

  /** classifyExit of one exit chunk. */
  datatype Exit = Exit(exit: int, code: Code)

  datatype Stage = Stage(events: seq<Event>, env: CallEnv, resumeOk: bool)

  /** The rules a turn runs under. */
  datatype Policy = Policy(
    scope: string -> bool, valid: ToolCall -> bool, audit: bool, mutating: string -> bool, required: string -> bool)

  /** What a turn does, in order: frames on the wire, answers read, tools started. */
  datatype Act =
    | CommandRequest(call: ToolCall)
    | ApprovalRequest(approvalId: string, call: ToolCall)
    | ApprovalAnswer(approvalId: string, call: ToolCall, answer: Approver.Answer)
    | Dispatched(call: ToolCall)
    | CommandResult(call: ToolCall, exit: int, code: Code)
    | Chunk(n: nat, text: string)
    | Thinking(n: nat, text: string)
    | ErrorReport(call: ToolCall, attempt: nat, maxAttempts: nat)
    | Message(text: string, finish: string, error: string, usage: Usage)

  // ---- The retry budget ----

  /** ShouldAutoRetry */
  predicate Retryable(exit: int, code: Code)
  {
    match code
    case NoCode => exit != 0
    case Timeout => true
    case Oom => true
    case _ => false
  }

  /** RetryBudget */
  class RetryBudget {
    var used: nat
    const max: nat

    constructor (max: int)
      ensures used == 0 && this.max == if max < 0 then 0 else max
    {
      this.max := if max < 0 then 0 else max;
      used := 0;
    }

    method Reset()
      modifies this
      ensures used == 0
    {
      used := 0;
    }

    method Consume() returns (remaining: bool)
      modifies this
      ensures used == old(used) + 1 && (remaining <==> used <= max)
    {
      if used >= max {
        used := used + 1;
        return false;
      }
      used := used + 1;
      return true;
    }

    method Attempt() returns (n: nat)
      ensures n == if used == 0 then 1 else used
    {
      n := if used == 0 then 1 else used;
    }
  }

  // ---- One tool call ----

  datatype CallResult = CallResult(acts: seq<Act>, exit: int, code: Code, ok: bool)

  /** classifyApprovalErr */
  function AnswerCode(a: Approver.Answer): Code { if a.CtxCanceled? then Canceled else Unauthorized }

  /** The results the stream loop sends, one per exit chunk. */
  function Results(call: ToolCall, exits: seq<Exit>): (acts: seq<Act>)
    ensures |acts| == |exits|
    ensures forall i :: 0 <= i < |acts| ==> acts[i] == CommandResult(call, exits[i].exit, exits[i].code)
  {
    seq(|exits|, i requires 0 <= i < |exits| => CommandResult(call, exits[i].exit, exits[i].code))
  }

  /** What the stream loop's variables hold at its end: the last exit, or a clean one. */
  function LastExit(exits: seq<Exit>): Exit
  {
    if exits == [] then Exit(0, NoCode) else exits[|exits| - 1]
  }

  function Refuse(acts: seq<Act>, call: ToolCall, code: Code, ok: bool): CallResult
  {
    CallResult(acts + [CommandResult(call, -1, code)], -1, code, ok)
  }

  function Dispatch(acts: seq<Act>, call: ToolCall, exits: seq<Exit>): CallResult
  {
    var last := LastExit(exits);
    CallResult(acts + [Dispatched(call)] + Results(call, exits), last.exit, last.code, true)
  }

  /** runToolCall with requestApproval inside: every refusal answers the command and
      goes back to the translator; only a cancelled approval ends the turn. */
  function RunCall(p: Policy, call: ToolCall, env: CallEnv): CallResult
  {
    var asked := [CommandRequest(call)];
    if !p.scope(call.tool) then Refuse(asked, call, Unauthorized, true)
    else if !p.valid(call) then Refuse(asked, call, BadRequest, true)
    else if p.audit && p.mutating(call.tool) then Refuse(asked, call, Unauthorized, true)
    else if !p.required(call.tool) then Dispatch(asked, call, env.exits)
    else if !env.previewOk then Refuse(asked, call, BadRequest, true)
    else
      var answered := asked + [ApprovalRequest(env.approvalId, call), ApprovalAnswer(env.approvalId, call, env.answer)];
      if env.answer.Granted? then Dispatch(answered, call, env.exits)
      else Refuse(answered, call, AnswerCode(env.answer), !env.answer.CtxCanceled?)
  }

  /** How many results a list of acts holds. */
  function ResultCount(acts: seq<Act>): nat
  {
    if acts == [] then 0
    else ResultCount(acts[..|acts| - 1]) + if acts[|acts| - 1].CommandResult? then 1 else 0
  }

  lemma {:induction false} ResultCountConcat(a: seq<Act>, b: seq<Act>)
    ensures ResultCount(a + b) == ResultCount(a) + ResultCount(b)
  {
    if b == [] {
      assert a + b == a;
    } else {
      assert (a + b)[..|a + b| - 1] == a + b[..|b| - 1];
      ResultCountConcat(a, b[..|b| - 1]);
    }
  }

  lemma {:induction false} ResultsCounted(call: ToolCall, exits: seq<Exit>)
    ensures ResultCount(Results(call, exits)) == |exits|
  {
    if exits == [] {
    } else {
      assert Results(call, exits)[..|exits| - 1] == Results(call, exits[..|exits| - 1]);
      ResultsCounted(call, exits[..|exits| - 1]);
    }
  }

  ghost predicate WasDispatched(acts: seq<Act>) { exists i :: 0 <= i < |acts| && acts[i].Dispatched? }

  /** One result for a refused call, one per exit chunk for a dispatched one. */
  ghost predicate AnsweredFrom(r: CallResult, exits: seq<Exit>)
  {
    && ResultCount(r.acts) == (if WasDispatched(r.acts) then |exits| else 1)
    && (WasDispatched(r.acts) && exits == [] ==> r.exit == 0 && r.code == NoCode && r.ok)
  }

  lemma DispatchAnswered(acts: seq<Act>, call: ToolCall, exits: seq<Exit>)
    requires ResultCount(acts) == 0
    ensures AnsweredFrom(Dispatch(acts, call, exits), exits)
  {
    ResultCountConcat(acts, [Dispatched(call)]);
    ResultCountConcat(acts + [Dispatched(call)], Results(call, exits));
    ResultsCounted(call, exits);
    assert ResultCount([Dispatched(call)]) == 0;
    assert Dispatch(acts, call, exits).acts[|acts|].Dispatched?;
  }

  lemma RefuseAnswered(acts: seq<Act>, call: ToolCall, code: Code, ok: bool, exits: seq<Exit>)
    requires ResultCount(acts) == 0 && !WasDispatched(acts)
    ensures AnsweredFrom(Refuse(acts, call, code, ok), exits)
  {
    var more := [CommandResult(call, -1, code)];
    ResultCountConcat(acts, more);
    assert ResultCount(more) == 1;
    assert !WasDispatched(acts + more);
  }

  /** A refused call is answered once. A dispatched one is answered once per exit chunk of
      its stream, so exactly once if and only if the stream keeps the runner's contract;
      without an exit chunk it counts as a success that nobody is told of. */
  lemma AnswersPerCall(p: Policy, call: ToolCall, env: CallEnv)
    ensures AnsweredFrom(RunCall(p, call, env), env.exits)
  {
    var asked := [CommandRequest(call)];
    var more := [ApprovalRequest(env.approvalId, call), ApprovalAnswer(env.approvalId, call, env.answer)];
    ResultCountConcat(asked, more);
    assert ResultCount(asked) == 0 && ResultCount(more[..1]) == 0 && ResultCount(more) == 0;
    assert !WasDispatched(asked) && !WasDispatched(asked + more);
    var r := RunCall(p, call, env);
    if r == Dispatch(asked, call, env.exits) {
      DispatchAnswered(asked, call, env.exits);
    } else if r == Dispatch(asked + more, call, env.exits) {
      DispatchAnswered(asked + more, call, env.exits);
    } else if r == Refuse(asked, call, r.code, r.ok) {
      RefuseAnswered(asked, call, r.code, r.ok, env.exits);
    } else {
      RefuseAnswered(asked + more, call, r.code, r.ok, env.exits);
    }
  }

  // ---- One turn ----

  /** How a tool call's result was handed on. */
  datatype Verdict =
    | Resumed
    | ResumedWithReport(attempt: nat, maxAttempts: nat)
    | Escalated(attempt: nat, maxAttempts: nat)
    | Aborted

  datatype Leg = Leg(call: ToolCall, exit: int, code: Code, verdict: Verdict)

  /** The locals of runIntent, the acts so far, the finished tool legs and the events
      taken off the translator's channels. */
  datatype State = State(
    seqNo: nat, thinkingNo: nat, usage: Usage, used: nat, acts: seq<Act>, legs: seq<Leg>, seen: seq<Event>, done: bool)

  const START := State(0, 0, ZERO, 0, [], [], [], false)

  datatype StageEnd = Going | Next | Silent | Terminal(final: Final)

  const FAILED := Final("", "error", ZERO)
  const EXHAUSTED := Final("exceeded NOMADDEV_MAX_AUTORETRIES; escalated to operator", "error", ZERO)

  /** consumeStage's ToolCall case: run the call, then settle its result. */
  function OnCall(p: Policy, max: nat, st: State, call: ToolCall, s: Stage): (State, StageEnd)
  {
    var r := RunCall(p, call, s.env);
    Settle(max, st.(acts := st.acts + r.acts), call, r, s.resumeOk)
  }

  function Settle(max: nat, st: State, call: ToolCall, r: CallResult, resumeOk: bool): (State, StageEnd)
  {
    if !r.ok then (st.(legs := st.legs + [Leg(call, r.exit, r.code, Aborted)]), Terminal(FAILED))
    else if Retryable(r.exit, r.code) then
      var used := st.used + 1;
      if used > max then
        (st.(used := used, legs := st.legs + [Leg(call, r.exit, r.code, Escalated(used, max + 1))],
             acts := st.acts + [ErrorReport(call, used, max + 1)]),
         Terminal(EXHAUSTED))
      else
        (st.(used := used, legs := st.legs + [Leg(call, r.exit, r.code, ResumedWithReport(used, max + 1))]),
         if resumeOk then Next else Terminal(FAILED))
    else
      (st.(used := 0, legs := st.legs + [Leg(call, r.exit, r.code, Resumed)]),
       if resumeOk then Next else Terminal(FAILED))
  }

  /** accumulateUsage: an all-zero stage is skipped, which adds nothing. */
  function Accumulate(turn: Usage, stage: Usage): Usage
  {
    if stage == ZERO then turn else Add(turn, stage)
  }

  /** One pass of consumeStage's loop. */
  function OnEvent(p: Policy, max: nat, st: State, ev: Event, s: Stage): (State, StageEnd)
  {
    Take(p, max, st.(seen := st.seen + [ev]), ev, s)
  }

  /** consumeStage's switch. */
  function Take(p: Policy, max: nat, st: State, ev: Event, s: Stage): (State, StageEnd)
  {
    if ev.err.Some? then (st, Terminal(FAILED))
    else if ev.text != "" then (st.(acts := st.acts + [Chunk(st.seqNo, ev.text)], seqNo := st.seqNo + 1), Going)
    else if ev.thinking != "" then
      (st.(acts := st.acts + [Thinking(st.thinkingNo, ev.thinking)], thinkingNo := st.thinkingNo + 1), Going)
    else if ev.usage.Some? then (st.(usage := Accumulate(st.usage, ev.usage.value)), Going)
    else if ev.call.Some? then OnCall(p, max, st, ev.call.value, s)
    else if ev.final.Some? then (st.(usage := Accumulate(st.usage, ev.final.value.usage)), Terminal(ev.final.value))
    else (st, Going)
  }

  function Consume(p: Policy, max: nat, st: State, s: Stage, i: nat): (State, StageEnd)
    requires i <= |s.events|
    decreases |s.events| - i
  {
    if i == |s.events| then (st, Silent)
    else
      var (st', end) := OnEvent(p, max, st, s.events[i], s);
      if end.Going? then Consume(p, max, st', s, i + 1) else (st', end)
  }

  /** emitAssistantMessage */
  function Close(st: State, text: string, finish: string, error: string): State
  {
    st.(acts := st.acts + [Message(text, if finish == "" then "stop" else finish, error, st.usage)], done := true)
  }

  /** One pass of runIntent's loop. */
  function RunStage(p: Policy, max: nat, st: State, s: Stage): State
  {
    var (st', end) := Consume(p, max, st, s, 0);
    match end
    case Terminal(f) => Close(st', f.text, f.finish, "")
    case Silent => Close(st', "", "error", CLOSED_EARLY)
    case _ => st'
  }

  /** The turn, as far as the script goes. */
  function RunTurn(p: Policy, max: nat, script: seq<Stage>): State
  {
    if script == [] then START
    else
      var st := RunTurn(p, max, script[..|script| - 1]);
      if st.done then st else RunStage(p, max, st, script[|script| - 1])
  }

  // ---- What every turn keeps ----

  function ChunkNumbers(acts: seq<Act>): seq<nat>
  {
    if acts == [] then []
    else ChunkNumbers(acts[..|acts| - 1]) + if acts[|acts| - 1].Chunk? then [acts[|acts| - 1].n] else []
  }

  function ThinkingNumbers(acts: seq<Act>): seq<nat>
  {
    if acts == [] then []
    else ThinkingNumbers(acts[..|acts| - 1]) + if acts[|acts| - 1].Thinking? then [acts[|acts| - 1].n] else []
  }

  function UpTo(n: nat): seq<nat> { seq(n, i => i) }

  /** 0, 1, 2, ... without a gap, on both streams. */
  ghost predicate Numbered(st: State)
  {
    ChunkNumbers(st.acts) == UpTo(st.seqNo) && ThinkingNumbers(st.acts) == UpTo(st.thinkingNo)
  }

  /** A running turn has sent no message; a finished one has sent exactly one, as its last
      act, with the turn's usage. */
  ghost predicate OneMessage(st: State)
  {
    && (forall i :: 0 <= i < |st.acts| && st.acts[i].Message? ==> st.done && i == |st.acts| - 1)
    && (st.done ==> |st.acts| >= 1 && st.acts[|st.acts| - 1].Message? && st.acts[|st.acts| - 1].usage == st.usage)
  }

  /** The number of consecutive retryable failures a list of legs ends with. */
  function Streak(legs: seq<Leg>): nat
  {
    if legs == [] then 0
    else
      var last := legs[|legs| - 1];
      if Retryable(last.exit, last.code) then Streak(legs[..|legs| - 1]) + 1 else 0
  }

  /** What must happen to a leg, given how many failures in a row it makes. */
  predicate Handled(leg: Leg, streak: nat, max: nat)
  {
    match leg.verdict
    case Resumed => streak == 0
    case ResumedWithReport(a, m) => 1 <= a == streak <= max && m == max + 1
    case Escalated(a, m) => a == streak == max + 1 == m
    case Aborted => streak == 0
  }

  /** Every leg was handled as its streak demands, and only the last leg of a turn escalates or aborts. */
  ghost predicate Budgeted(st: State, max: nat)
  {
    && (forall i :: 0 <= i < |st.legs| ==> Handled(st.legs[i], Streak(st.legs[..i + 1]), max))
    && (forall i :: 0 <= i < |st.legs| - 1 ==> !st.legs[i].verdict.Escalated? && !st.legs[i].verdict.Aborted?)
  }

  /** While the turn goes on, the budget has counted exactly the current streak. */
  ghost predicate InStep(st: State)
  {
    && st.used == Streak(st.legs)
    && (st.legs != [] ==> !st.legs[|st.legs| - 1].verdict.Escalated? && !st.legs[|st.legs| - 1].verdict.Aborted?)
  }

  lemma ActsSnoc(acts: seq<Act>, a: Act)
    ensures ChunkNumbers(acts + [a]) == ChunkNumbers(acts) + if a.Chunk? then [a.n] else []
    ensures ThinkingNumbers(acts + [a]) == ThinkingNumbers(acts) + if a.Thinking? then [a.n] else []
  {
  }

  predicate Silently(more: seq<Act>)
  {
    forall i :: 0 <= i < |more| ==> !more[i].Chunk? && !more[i].Thinking? && !more[i].Message?
  }

  lemma {:induction false} ActsSilent(acts: seq<Act>, more: seq<Act>)
    requires Silently(more)
    ensures ChunkNumbers(acts + more) == ChunkNumbers(acts)
    ensures ThinkingNumbers(acts + more) == ThinkingNumbers(acts)
  {
    if more == [] {
      assert acts + more == acts;
    } else {
      var init, last := more[..|more| - 1], more[|more| - 1];
      assert acts + more == (acts + init) + [last];
      ActsSilent(acts, init);
      ActsSnoc(acts + init, last);
    }
  }

  // ---- Gates ----

  /** The acts that let the dispatch at i happen, all of them for the same command:
      the request at r opened it, every policy gate is open, and where approval is
      required it was asked and granted in between. */
  ghost predicate Justified(p: Policy, acts: seq<Act>, i: nat)
    requires i < |acts| && acts[i].Dispatched?
  {
    var call := acts[i].call;
    && p.scope(call.tool) && p.valid(call) && !(p.audit && p.mutating(call.tool))
    && exists r :: Opened(acts, call, r, i) && (p.required(call.tool) ==> exists q :: GrantedAt(acts, call, r, q, i))
  }

  ghost predicate Opened(acts: seq<Act>, call: ToolCall, r: int, i: nat)
    requires i < |acts|
  {
    && 0 <= r < i && acts[r] == CommandRequest(call)
    && (forall j :: r < j < i ==> !acts[j].CommandRequest? && !acts[j].Dispatched?)
  }

  ghost predicate GrantedAt(acts: seq<Act>, call: ToolCall, r: int, q: int, i: nat)
    requires i < |acts|
  {
    && 0 <= r < q < i - 1 && acts[q].ApprovalRequest? && acts[q].call == call
    && acts[q + 1] == ApprovalAnswer(acts[q].approvalId, call, Approver.Granted)
  }

  ghost predicate Gated(p: Policy, acts: seq<Act>)
  {
    forall i :: 0 <= i < |acts| && acts[i].Dispatched? ==> Justified(p, acts, i)
  }

  /** acts sits inside all, starting at k. */
  ghost predicate Within(acts: seq<Act>, all: seq<Act>, k: nat)
  {
    k + |acts| <= |all| && forall j :: 0 <= j < |acts| ==> all[k + j] == acts[j]
  }

  lemma OpenedWithin(acts: seq<Act>, all: seq<Act>, k: nat, call: ToolCall, r: int, i: nat)
    requires Within(acts, all, k) && i < |acts| && Opened(acts, call, r, i)
    ensures Opened(all, call, k + r, k + i)
  {
    assert all[k + r] == acts[r];
    forall j | k + r < j < k + i ensures !all[j].CommandRequest? && !all[j].Dispatched? {
      assert all[k + (j - k)] == acts[j - k];
    }
  }

  lemma GrantedWithin(acts: seq<Act>, all: seq<Act>, k: nat, call: ToolCall, r: int, q: int, i: nat)
    requires Within(acts, all, k) && i < |acts| && GrantedAt(acts, call, r, q, i)
    ensures GrantedAt(all, call, k + r, k + q, k + i)
  {
  }

  lemma JustifiedWithin(p: Policy, acts: seq<Act>, all: seq<Act>, k: nat, i: nat)
    requires Within(acts, all, k) && i < |acts| && acts[i].Dispatched? && Justified(p, acts, i)
    ensures all[k + i] == acts[i] && Justified(p, all, k + i)
  {
    var call := acts[i].call;
    var r :| Opened(acts, call, r, i) && (p.required(call.tool) ==> exists q :: GrantedAt(acts, call, r, q, i));
    OpenedWithin(acts, all, k, call, r, i);
    if p.required(call.tool) {
      var q :| GrantedAt(acts, call, r, q, i);
      GrantedWithin(acts, all, k, call, r, q, i);
    }
  }

  lemma GatedConcat(p: Policy, acts: seq<Act>, more: seq<Act>)
    requires Gated(p, acts) && Gated(p, more)
    ensures Gated(p, acts + more)
  {
    var all := acts + more;
    forall i | 0 <= i < |all| && all[i].Dispatched? ensures Justified(p, all, i) {
      if i < |acts| {
        JustifiedWithin(p, acts, all, 0, i);
      } else {
        JustifiedWithin(p, more, all, |acts|, i - |acts|);
      }
    }
  }

  lemma CallGated(p: Policy, call: ToolCall, env: CallEnv)
    ensures Gated(p, RunCall(p, call, env).acts) && Silently(RunCall(p, call, env).acts)
  {
    var acts := RunCall(p, call, env).acts;
    forall i | 0 <= i < |acts| && acts[i].Dispatched? ensures Justified(p, acts, i) {
      assert Opened(acts, call, 0, i);
      if p.required(call.tool) { assert GrantedAt(acts, call, 0, 1, i); }
    }
  }

  /** The policy gates let the call through, so that only approval can still stop it. */
  predicate PolicyOpen(p: Policy, call: ToolCall)
  {
    p.scope(call.tool) && p.valid(call) && !(p.audit && p.mutating(call.tool))
  }

  /** All gates are open for the call, and approval is granted where it is required. */
  predicate GatesOpen(p: Policy, call: ToolCall, env: CallEnv)
  {
    PolicyOpen(p, call) && (p.required(call.tool) ==> env.previewOk && env.answer.Granted?)
  }

  /** A call is dispatched exactly when every gate lets it. What is handed on is then the last
      exit its stream carried, which is also the last thing said about the call; a refused call
      ends with exit -1, and only a cancelled approval stops the turn. */
  lemma DispatchedIff(p: Policy, call: ToolCall, env: CallEnv)
    ensures var r := RunCall(p, call, env);
      && (WasDispatched(r.acts) <==> GatesOpen(p, call, env))
      && (WasDispatched(r.acts) && env.exits != [] ==> Exit(r.exit, r.code) == env.exits[|env.exits| - 1])
      && (!WasDispatched(r.acts) || env.exits != [] ==>
            r.acts != [] && r.acts[|r.acts| - 1] == CommandResult(call, r.exit, r.code))
      && (!WasDispatched(r.acts) ==> r.exit == -1 && r.code in {Unauthorized, BadRequest, Canceled})
      && (r.ok <==> r.code != Canceled || WasDispatched(r.acts))
  {
    var r := RunCall(p, call, env);
    var asked := [CommandRequest(call)];
    var more := [ApprovalRequest(env.approvalId, call), ApprovalAnswer(env.approvalId, call, env.answer)];
    if GatesOpen(p, call, env) {
      var before := if p.required(call.tool) then asked + more else asked;
      assert r == Dispatch(before, call, env.exits);
      assert r.acts[|before|].Dispatched?;
      assert env.exits != [] ==> r.acts[|r.acts| - 1] == Results(call, env.exits)[|env.exits| - 1];
    } else {
      assert r == Refuse(asked, call, r.code, r.ok) || r == Refuse(asked + more, call, r.code, r.ok);
    }
  }

  /** When a person is asked, and what a refused call is told: a bad request for malformed
      arguments and for a preview that cannot be built, a cancellation for a cancelled wait,
      and otherwise that it is not authorized. */
  lemma RefusedBecause(p: Policy, call: ToolCall, env: CallEnv)
    ensures var r := RunCall(p, call, env);
      && ((exists i :: 0 <= i < |r.acts| && r.acts[i] == ApprovalRequest(env.approvalId, call))
          <==> PolicyOpen(p, call) && p.required(call.tool) && env.previewOk)
      && (!GatesOpen(p, call, env) ==>
            && (r.code == BadRequest <==>
                  || (p.scope(call.tool) && !p.valid(call))
                  || (PolicyOpen(p, call) && p.required(call.tool) && !env.previewOk))
            && (r.code == Canceled <==>
                  PolicyOpen(p, call) && p.required(call.tool) && env.previewOk && env.answer.CtxCanceled?))
  {
    var r := RunCall(p, call, env);
    if PolicyOpen(p, call) && p.required(call.tool) && env.previewOk {
      assert r.acts[1] == ApprovalRequest(env.approvalId, call);
    } else {
      assert forall i :: 0 <= i < |r.acts| ==> !r.acts[i].ApprovalRequest?;
    }
  }

  // ---- The invariant of a turn, event by event ----

  ghost predicate TurnOk(p: Policy, max: nat, st: State)
  {
    Numbered(st) && OneMessage(st) && Budgeted(st, max) && Gated(p, st.acts)
  }

  /** Numbering, message and gates only look at the acts and counters. */
  lemma LegsApart(p: Policy, max: nat, st: State, st': State)
    requires TurnOk(p, max, st) && Budgeted(st', max)
    requires st'.acts == st.acts && st'.seqNo == st.seqNo && st'.thinkingNo == st.thinkingNo
    requires st'.done == st.done && st'.usage == st.usage
    ensures TurnOk(p, max, st')
  {
  }

  lemma SilentActs(p: Policy, max: nat, st: State, more: seq<Act>)
    requires TurnOk(p, max, st) && !st.done && Silently(more) && Gated(p, more)
    ensures TurnOk(p, max, st.(acts := st.acts + more))
  {
    ActsSilent(st.acts, more);
    GatedConcat(p, st.acts, more);
  }

  lemma LegAdded(max: nat, legs: seq<Leg>, leg: Leg)
    requires forall i :: 0 <= i < |legs| ==> Handled(legs[i], Streak(legs[..i + 1]), max)
    requires Handled(leg, if Retryable(leg.exit, leg.code) then Streak(legs) + 1 else 0, max)
    ensures Streak(legs + [leg]) == if Retryable(leg.exit, leg.code) then Streak(legs) + 1 else 0
    ensures forall i :: 0 <= i < |legs + [leg]| ==> Handled((legs + [leg])[i], Streak((legs + [leg])[..i + 1]), max)
  {
    var more := legs + [leg];
    assert more[..|legs|] == legs && more[..|more|] == more;
    forall i | 0 <= i < |more| ensures Handled(more[i], Streak(more[..i + 1]), max) {
      if i < |legs| { assert more[..i + 1] == legs[..i + 1]; }
    }
  }

  /** Adding a leg that is handled as its streak demands. */
  lemma LegKeeps(p: Policy, max: nat, st: State, leg: Leg, used: nat)
    requires TurnOk(p, max, st) && InStep(st)
    requires Handled(leg, if Retryable(leg.exit, leg.code) then Streak(st.legs) + 1 else 0, max)
    ensures var st' := st.(used := used, legs := st.legs + [leg]);
      && TurnOk(p, max, st')
      && (!leg.verdict.Escalated? && !leg.verdict.Aborted? && used == Streak(st.legs + [leg]) ==> InStep(st'))
    ensures Streak(st.legs + [leg]) == if Retryable(leg.exit, leg.code) then Streak(st.legs) + 1 else 0
  {
    LegAdded(max, st.legs, leg);
    var st' := st.(used := used, legs := st.legs + [leg]);
    assert Budgeted(st', max);
    LegsApart(p, max, st, st');
  }

  lemma StreakWithinBudget(max: nat, legs: seq<Leg>)
    requires legs != [] ==>
      Handled(legs[|legs| - 1], Streak(legs[..|legs| - 1 + 1]), max) && !legs[|legs| - 1].verdict.Escalated?
    ensures Streak(legs) <= max
  {
    if legs != [] { assert legs[..|legs| - 1 + 1] == legs; }
  }

  ghost predicate Settled(p: Policy, max: nat, st: State, end: StageEnd)
  {
    TurnOk(p, max, st) && !st.done && (end.Next? ==> InStep(st)) && !end.Going? && !end.Silent?
  }

  lemma EscalateKeeps(p: Policy, max: nat, st: State, leg: Leg, used: nat)
    requires TurnOk(p, max, st) && InStep(st) && !st.done
    requires Retryable(leg.exit, leg.code) && used == st.used + 1 == max + 1 && leg.verdict == Escalated(used, max + 1)
    ensures var acts := st.acts + [ErrorReport(leg.call, used, max + 1)];
      Settled(p, max, st.(used := used, legs := st.legs + [leg], acts := acts), Terminal(EXHAUSTED))
  {
    LegKeeps(p, max, st, leg, used);
    SilentActs(p, max, st.(used := used, legs := st.legs + [leg]), [ErrorReport(leg.call, used, max + 1)]);
  }

  lemma LegSettles(p: Policy, max: nat, st: State, leg: Leg, used: nat, end: StageEnd)
    requires TurnOk(p, max, st) && InStep(st) && !st.done && (end.Next? || end.Terminal?)
    requires Handled(leg, if Retryable(leg.exit, leg.code) then Streak(st.legs) + 1 else 0, max)
    requires end.Next? ==> !leg.verdict.Escalated? && !leg.verdict.Aborted?
                           && used == if Retryable(leg.exit, leg.code) then Streak(st.legs) + 1 else 0
    ensures Settled(p, max, st.(used := used, legs := st.legs + [leg]), end)
  {
    LegKeeps(p, max, st, leg, used);
  }

  lemma BudgetLeft(p: Policy, max: nat, st: State)
    requires TurnOk(p, max, st) && InStep(st)
    ensures st.used <= max
  {
    StreakWithinBudget(max, st.legs);
  }

  lemma SettleRetries(p: Policy, max: nat, st: State, call: ToolCall, r: CallResult, resumeOk: bool)
    requires TurnOk(p, max, st) && InStep(st) && !st.done && r.ok && Retryable(r.exit, r.code) && st.used < max
    ensures Settled(p, max, Settle(max, st, call, r, resumeOk).0, Settle(max, st, call, r, resumeOk).1)
  {
    var leg := Leg(call, r.exit, r.code, ResumedWithReport(st.used + 1, max + 1));
    LegSettles(p, max, st, leg, st.used + 1, if resumeOk then Next else Terminal(FAILED));
    SettleIsRetry(max, st, call, r, resumeOk, leg);
  }

  lemma SettleIsRetry(max: nat, st: State, call: ToolCall, r: CallResult, resumeOk: bool, leg: Leg)
    requires r.ok && Retryable(r.exit, r.code) && st.used < max
    requires leg == Leg(call, r.exit, r.code, ResumedWithReport(st.used + 1, max + 1))
    ensures Settle(max, st, call, r, resumeOk)
         == (st.(used := st.used + 1, legs := st.legs + [leg]), if resumeOk then Next else Terminal(FAILED))
  {
  }

  lemma SettleEscalates(p: Policy, max: nat, st: State, call: ToolCall, r: CallResult, resumeOk: bool)
    requires TurnOk(p, max, st) && InStep(st) && !st.done && r.ok && Retryable(r.exit, r.code) && st.used == max
    ensures Settled(p, max, Settle(max, st, call, r, resumeOk).0, Settle(max, st, call, r, resumeOk).1)
  {
    var leg := Leg(call, r.exit, r.code, Escalated(max + 1, max + 1));
    EscalateKeeps(p, max, st, leg, max + 1);
    SettleIsEscalation(max, st, call, r, resumeOk, leg);
  }

  lemma SettleIsEscalation(max: nat, st: State, call: ToolCall, r: CallResult, resumeOk: bool, leg: Leg)
    requires r.ok && Retryable(r.exit, r.code) && st.used == max
    requires leg == Leg(call, r.exit, r.code, Escalated(max + 1, max + 1))
    ensures var acts := st.acts + [ErrorReport(leg.call, max + 1, max + 1)];
      Settle(max, st, call, r, resumeOk)
      == (st.(used := max + 1, legs := st.legs + [leg], acts := acts), Terminal(EXHAUSTED))
  {
  }

  lemma SettleFailure(p: Policy, max: nat, st: State, call: ToolCall, r: CallResult, resumeOk: bool)
    requires TurnOk(p, max, st) && InStep(st) && !st.done && r.ok && Retryable(r.exit, r.code)
    ensures Settled(p, max, Settle(max, st, call, r, resumeOk).0, Settle(max, st, call, r, resumeOk).1)
  {
    BudgetLeft(p, max, st);
    if st.used < max {
      SettleRetries(p, max, st, call, r, resumeOk);
    } else {
      SettleEscalates(p, max, st, call, r, resumeOk);
    }
  }

  lemma SettleOther(p: Policy, max: nat, st: State, call: ToolCall, r: CallResult, resumeOk: bool)
    requires TurnOk(p, max, st) && InStep(st) && !st.done && !Retryable(r.exit, r.code)
    ensures Settled(p, max, Settle(max, st, call, r, resumeOk).0, Settle(max, st, call, r, resumeOk).1)
  {
    if r.ok {
      LegSettles(p, max, st, Leg(call, r.exit, r.code, Resumed), 0, if resumeOk then Next else Terminal(FAILED));
    } else {
      LegSettles(p, max, st, Leg(call, r.exit, r.code, Aborted), st.used, Terminal(FAILED));
    }
  }

  lemma SettleKeeps(p: Policy, max: nat, st: State, call: ToolCall, r: CallResult, resumeOk: bool)
    requires TurnOk(p, max, st) && InStep(st) && !st.done
    requires r.ok || !Retryable(r.exit, r.code)
    ensures Settled(p, max, Settle(max, st, call, r, resumeOk).0, Settle(max, st, call, r, resumeOk).1)
  {
    if Retryable(r.exit, r.code) {
      SettleFailure(p, max, st, call, r, resumeOk);
    } else {
      SettleOther(p, max, st, call, r, resumeOk);
    }
  }

  lemma OnCallKeeps(p: Policy, max: nat, st: State, call: ToolCall, s: Stage)
    requires TurnOk(p, max, st) && InStep(st) && !st.done
    ensures Settled(p, max, OnCall(p, max, st, call, s).0, OnCall(p, max, st, call, s).1)
  {
    var r := RunCall(p, call, s.env);
    CallGated(p, call, s.env);
    SilentActs(p, max, st, r.acts);
    SettleKeeps(p, max, st.(acts := st.acts + r.acts), call, r, s.resumeOk);
  }

  lemma SpokenAct(p: Policy, max: nat, st: State, a: Act)
    requires TurnOk(p, max, st) && !st.done
    requires (a.Chunk? && a.n == st.seqNo) || (a.Thinking? && a.n == st.thinkingNo)
    ensures var st' := if a.Chunk? then st.(acts := st.acts + [a], seqNo := st.seqNo + 1)
                       else st.(acts := st.acts + [a], thinkingNo := st.thinkingNo + 1);
      TurnOk(p, max, st')
  {
    ActsSnoc(st.acts, a);
    GatedConcat(p, st.acts, [a]);
    assert UpTo(st.seqNo + 1) == UpTo(st.seqNo) + [st.seqNo];
    assert UpTo(st.thinkingNo + 1) == UpTo(st.thinkingNo) + [st.thinkingNo];
    assert UpTo(st.seqNo) + [] == UpTo(st.seqNo) && UpTo(st.thinkingNo) + [] == UpTo(st.thinkingNo);
  }

  ghost predicate EventKept(p: Policy, max: nat, st: State, end: StageEnd)
  {
    TurnOk(p, max, st) && !st.done && (end.Going? || end.Next? ==> InStep(st)) && !end.Silent?
  }

  /** Usage and the events seen are no part of the invariant of a running turn. */
  lemma Bookkeeping(p: Policy, max: nat, st: State, usage: Usage, seen: seq<Event>, end: StageEnd)
    requires TurnOk(p, max, st) && InStep(st) && !st.done && !end.Silent?
    ensures EventKept(p, max, st.(usage := usage, seen := seen), end)
  {
  }

  lemma TakeKeeps(p: Policy, max: nat, st: State, ev: Event, s: Stage)
    requires TurnOk(p, max, st) && InStep(st) && !st.done
    ensures EventKept(p, max, Take(p, max, st, ev, s).0, Take(p, max, st, ev, s).1)
  {
    if ev.err.Some? {
    } else if ev.text != "" {
      SpokenAct(p, max, st, Chunk(st.seqNo, ev.text));
    } else if ev.thinking != "" {
      SpokenAct(p, max, st, Thinking(st.thinkingNo, ev.thinking));
    } else if ev.usage.Some? {
      Bookkeeping(p, max, st, Accumulate(st.usage, ev.usage.value), st.seen, Going);
    } else if ev.call.Some? {
      OnCallKeeps(p, max, st, ev.call.value, s);
    } else if ev.final.Some? {
      Bookkeeping(p, max, st, Accumulate(st.usage, ev.final.value.usage), st.seen, Terminal(ev.final.value));
    }
  }

  lemma OnEventKeeps(p: Policy, max: nat, st: State, ev: Event, s: Stage)
    requires TurnOk(p, max, st) && InStep(st) && !st.done
    ensures EventKept(p, max, OnEvent(p, max, st, ev, s).0, OnEvent(p, max, st, ev, s).1)
  {
    Bookkeeping(p, max, st, st.usage, st.seen + [ev], Going);
    TakeKeeps(p, max, st.(seen := st.seen + [ev]), ev, s);
  }

  lemma {:induction false} ConsumeKeeps(p: Policy, max: nat, st: State, s: Stage, i: nat)
    requires i <= |s.events| && TurnOk(p, max, st) && InStep(st) && !st.done
    ensures var (st', end) := Consume(p, max, st, s, i);
      TurnOk(p, max, st') && !st'.done && (end.Next? ==> InStep(st')) && !end.Going?
    decreases |s.events| - i
  {
    if i == |s.events| {
    } else {
      OnEventKeeps(p, max, st, s.events[i], s);
      var (st', end) := OnEvent(p, max, st, s.events[i], s);
      if end.Going? { ConsumeKeeps(p, max, st', s, i + 1); }
    }
  }

  lemma CloseKeeps(p: Policy, max: nat, st: State, text: string, finish: string, error: string)
    requires TurnOk(p, max, st) && !st.done
    ensures TurnOk(p, max, Close(st, text, finish, error))
  {
    var m := Message(text, if finish == "" then "stop" else finish, error, st.usage);
    ActsSnoc(st.acts, m);
    assert UpTo(st.seqNo) + [] == UpTo(st.seqNo) && UpTo(st.thinkingNo) + [] == UpTo(st.thinkingNo);
    GatedConcat(p, st.acts, [m]);
  }

  /** Every point of every turn: both streams are numbered 0, 1, 2, ... without gaps;
      there is exactly one message once the turn is over, it is the last act and
      carries the turn's usage; every tool leg got the retry verdict its streak of
      failures demands; and no tool was dispatched past a closed gate. */
  lemma {:induction false} EveryTurnOk(p: Policy, max: nat, script: seq<Stage>)
    ensures var st := RunTurn(p, max, script);
      TurnOk(p, max, st) && (!st.done ==> InStep(st))
  {
    if script == [] {
      assert UpTo(0) == [];
    } else {
      EveryTurnOk(p, max, script[..|script| - 1]);
      var st := RunTurn(p, max, script[..|script| - 1]);
      if !st.done {
        var s := script[|script| - 1];
        ConsumeKeeps(p, max, st, s, 0);
        var (st', end) := Consume(p, max, st, s, 0);
        match end
        case Terminal(f) => CloseKeeps(p, max, st', f.text, f.finish, "");
        case Silent => CloseKeeps(p, max, st', "", "error", CLOSED_EARLY);
        case _ =>
      }
    }
  }

  // ---- What the wire says of calls and texts ----

  lemma EventSeen(p: Policy, max: nat, st: State, ev: Event, s: Stage)
    ensures Take(p, max, st, ev, s).0.seen == st.seen
  {
  }

  /** What the client is told of a call: the last result sent for it, or none. */
  datatype Told = Told(call: ToolCall, exit: int, code: Code)

  /** The calls announced, each with the last result sent before the next one. */
  function Calls(acts: seq<Act>): seq<Told>
  {
    if acts == [] then []
    else
      var told := Calls(acts[..|acts| - 1]);
      match acts[|acts| - 1]
      case CommandRequest(call) => told + [Told(call, 0, NoCode)]
      case CommandResult(call, exit, code) => Corrected(told, exit, code)
      case _ => told
  }

  function Corrected(told: seq<Told>, exit: int, code: Code): seq<Told>
  {
    if told == [] then [] else told[..|told| - 1] + [Told(told[|told| - 1].call, exit, code)]
  }

  function ChunkTexts(acts: seq<Act>): seq<string>
  {
    if acts == [] then []
    else ChunkTexts(acts[..|acts| - 1]) + if acts[|acts| - 1].Chunk? then [acts[|acts| - 1].text] else []
  }

  function ThinkingTexts(acts: seq<Act>): seq<string>
  {
    if acts == [] then []
    else ThinkingTexts(acts[..|acts| - 1]) + if acts[|acts| - 1].Thinking? then [acts[|acts| - 1].text] else []
  }

  predicate IsText(ev: Event) { ev.err.None? && ev.text != "" }

  predicate IsThought(ev: Event) { ev.err.None? && ev.text == "" && ev.thinking != "" }

  predicate IsCall(ev: Event)
  {
    ev.err.None? && ev.text == "" && ev.thinking == "" && ev.usage.None? && ev.call.Some?
  }

  function Texts(seen: seq<Event>): seq<string>
  {
    if seen == [] then []
    else Texts(seen[..|seen| - 1]) + if IsText(seen[|seen| - 1]) then [seen[|seen| - 1].text] else []
  }

  function Thoughts(seen: seq<Event>): seq<string>
  {
    if seen == [] then []
    else Thoughts(seen[..|seen| - 1]) + if IsThought(seen[|seen| - 1]) then [seen[|seen| - 1].thinking] else []
  }

  function LegsTold(legs: seq<Leg>): (told: seq<Told>)
    ensures |told| == |legs|
  {
    seq(|legs|, i requires 0 <= i < |legs| => Told(legs[i].call, legs[i].exit, legs[i].code))
  }

  /** Chunks and thoughts are the translator's, in order. */
  ghost predicate Voiced(st: State)
  {
    ChunkTexts(st.acts) == Texts(st.seen) && ThinkingTexts(st.acts) == Thoughts(st.seen)
  }

  /** Every leg is what the wire says of its call. */
  ghost predicate Announced(st: State) { Calls(st.acts) == LegsTold(st.legs) }

  lemma TextsSnoc(acts: seq<Act>, a: Act)
    ensures ChunkTexts(acts + [a]) == ChunkTexts(acts) + if a.Chunk? then [a.text] else []
    ensures ThinkingTexts(acts + [a]) == ThinkingTexts(acts) + if a.Thinking? then [a.text] else []
  {
    assert (acts + [a])[..|acts|] == acts;
  }

  lemma SeenSnoc(seen: seq<Event>, ev: Event)
    ensures Texts(seen + [ev]) == Texts(seen) + if IsText(ev) then [ev.text] else []
    ensures Thoughts(seen + [ev]) == Thoughts(seen) + if IsThought(ev) then [ev.thinking] else []
  {
    assert (seen + [ev])[..|seen|] == seen;
  }

  lemma {:induction false} TextsSilent(acts: seq<Act>, more: seq<Act>)
    requires Silently(more)
    ensures ChunkTexts(acts + more) == ChunkTexts(acts) && ThinkingTexts(acts + more) == ThinkingTexts(acts)
  {
    if more == [] {
      assert acts + more == acts;
    } else {
      var init, last := more[..|more| - 1], more[|more| - 1];
      assert acts + more == (acts + init) + [last];
      TextsSilent(acts, init);
      TextsSnoc(acts + init, last);
    }
  }

  lemma CallsSnoc(acts: seq<Act>, a: Act)
    ensures a.CommandRequest? ==> Calls(acts + [a]) == Calls(acts) + [Told(a.call, 0, NoCode)]
    ensures a.CommandResult? ==> Calls(acts + [a]) == Corrected(Calls(acts), a.exit, a.code)
    ensures !a.CommandRequest? && !a.CommandResult? ==> Calls(acts + [a]) == Calls(acts)
  {
    assert (acts + [a])[..|acts|] == acts;
  }

  lemma {:induction false} CallsResults(acts: seq<Act>, call: ToolCall, exits: seq<Exit>)
    requires exits != []
    ensures Calls(acts + Results(call, exits))
         == Corrected(Calls(acts), exits[|exits| - 1].exit, exits[|exits| - 1].code)
  {
    var init, last := exits[..|exits| - 1], exits[|exits| - 1];
    var a := CommandResult(call, last.exit, last.code);
    assert acts + Results(call, exits) == (acts + Results(call, init)) + [a];
    CallsSnoc(acts + Results(call, init), a);
    if init == [] {
      assert acts + Results(call, init) == acts;
    } else {
      CallsResults(acts, call, init);
    }
  }

  lemma CallsAsked(acts: seq<Act>, call: ToolCall, env: CallEnv)
    ensures var asked := acts + [CommandRequest(call)];
      var more := [ApprovalRequest(env.approvalId, call), ApprovalAnswer(env.approvalId, call, env.answer)];
      && Calls(asked) == Calls(acts) + [Told(call, 0, NoCode)] && Calls(asked + more) == Calls(asked)
  {
    var asked := acts + [CommandRequest(call)];
    var q, a := ApprovalRequest(env.approvalId, call), ApprovalAnswer(env.approvalId, call, env.answer);
    CallsSnoc(acts, CommandRequest(call));
    CallsSnoc(asked, q);
    CallsSnoc(asked + [q], a);
    assert asked + [q, a] == (asked + [q]) + [a];
  }

  /** One call adds one entry, with the exit and code it hands on. */
  lemma CallTold(acts: seq<Act>, p: Policy, call: ToolCall, env: CallEnv)
    ensures var r := RunCall(p, call, env);
      Calls(acts + r.acts) == Calls(acts) + [Told(call, r.exit, r.code)]
  {
    var r := RunCall(p, call, env);
    var asked := [CommandRequest(call)];
    var more := [ApprovalRequest(env.approvalId, call), ApprovalAnswer(env.approvalId, call, env.answer)];
    CallsAsked(acts, call, env);
    assert acts + (asked + more) == acts + asked + more;
    if r == Dispatch(asked, call, env.exits) {
      DispatchTold(acts, asked, call, env.exits);
    } else if r == Dispatch(asked + more, call, env.exits) {
      DispatchTold(acts, asked + more, call, env.exits);
    } else if r == Refuse(asked, call, r.code, r.ok) {
      RefuseTold(acts, asked, call, r.code, r.ok);
    } else {
      RefuseTold(acts, asked + more, call, r.code, r.ok);
    }
  }

  lemma DispatchTold(acts: seq<Act>, before: seq<Act>, call: ToolCall, exits: seq<Exit>)
    requires Calls(acts + before) == Calls(acts) + [Told(call, 0, NoCode)]
    ensures var r := Dispatch(before, call, exits);
      Calls(acts + r.acts) == Calls(acts) + [Told(call, r.exit, r.code)]
  {
    var r := Dispatch(before, call, exits);
    CallsSnoc(acts + before, Dispatched(call));
    var begun := acts + before + [Dispatched(call)];
    assert acts + r.acts == begun + Results(call, exits);
    if exits == [] {
      assert begun + Results(call, exits) == begun;
    } else {
      CallsResults(begun, call, exits);
      assert (Calls(acts) + [Told(call, 0, NoCode)])[..|Calls(acts)|] == Calls(acts);
    }
  }

  lemma RefuseTold(acts: seq<Act>, before: seq<Act>, call: ToolCall, code: Code, ok: bool)
    requires Calls(acts + before) == Calls(acts) + [Told(call, 0, NoCode)]
    ensures Calls(acts + Refuse(before, call, code, ok).acts) == Calls(acts) + [Told(call, -1, code)]
  {
    var a := CommandResult(call, -1, code);
    CallsSnoc(acts + before, a);
    assert acts + (before + [a]) == (acts + before) + [a];
    assert (Calls(acts) + [Told(call, 0, NoCode)])[..|Calls(acts)|] == Calls(acts);
  }

  lemma SettleAnnounced(max: nat, st: State, was: State, call: ToolCall, r: CallResult, resumeOk: bool)
    requires Calls(st.acts) == LegsTold(was.legs) + [Told(call, r.exit, r.code)] && st.legs == was.legs
    ensures Announced(Settle(max, st, call, r, resumeOk).0)
  {
    var st' := Settle(max, st, call, r, resumeOk).0;
    CallsSnoc(st.acts, ErrorReport(call, st.used + 1, max + 1));
    assert Calls(st'.acts) == Calls(st.acts);
    assert LegsTold(st'.legs) == LegsTold(st.legs) + [Told(call, r.exit, r.code)];
  }

  lemma OnCallAnnounced(p: Policy, max: nat, st: State, call: ToolCall, s: Stage)
    requires Announced(st)
    ensures Announced(OnCall(p, max, st, call, s).0)
  {
    var r := RunCall(p, call, s.env);
    CallTold(st.acts, p, call, s.env);
    SettleAnnounced(max, st.(acts := st.acts + r.acts), st, call, r, s.resumeOk);
  }

  lemma SettleVoices(max: nat, st: State, call: ToolCall, r: CallResult, resumeOk: bool)
    ensures var st' := Settle(max, st, call, r, resumeOk).0;
      && ChunkTexts(st'.acts) == ChunkTexts(st.acts) && ThinkingTexts(st'.acts) == ThinkingTexts(st.acts)
      && st'.seen == st.seen
  {
    var report := ErrorReport(call, st.used + 1, max + 1);
    var st' := Settle(max, st, call, r, resumeOk).0;
    assert st'.acts == st.acts || st'.acts == st.acts + [report];
    TextsSnoc(st.acts, report);
  }

  lemma OnCallVoices(p: Policy, max: nat, st: State, call: ToolCall, s: Stage)
    ensures var st' := OnCall(p, max, st, call, s).0;
      && ChunkTexts(st'.acts) == ChunkTexts(st.acts) && ThinkingTexts(st'.acts) == ThinkingTexts(st.acts)
      && st'.seen == st.seen
  {
    var r := RunCall(p, call, s.env);
    CallGated(p, call, s.env);
    TextsSilent(st.acts, r.acts);
    SettleVoices(max, st.(acts := st.acts + r.acts), call, r, s.resumeOk);
  }

  /** One more text, or none. */
  ghost predicate Says(was: seq<string>, now: seq<string>, said: bool, text: string)
  {
    now == if said then was + [text] else was
  }

  lemma TakeVoices(p: Policy, max: nat, st: State, ev: Event, s: Stage)
    ensures var st' := Take(p, max, st, ev, s).0;
      && Says(ChunkTexts(st.acts), ChunkTexts(st'.acts), IsText(ev), ev.text)
      && Says(ThinkingTexts(st.acts), ThinkingTexts(st'.acts), IsThought(ev), ev.thinking)
  {
    if IsText(ev) {
      TextsSnoc(st.acts, Chunk(st.seqNo, ev.text));
    } else if IsThought(ev) {
      TextsSnoc(st.acts, Thinking(st.thinkingNo, ev.thinking));
    } else if IsCall(ev) {
      OnCallVoices(p, max, st, ev.call.value, s);
    }
  }

  lemma OnEventVoices(p: Policy, max: nat, st: State, ev: Event, s: Stage)
    requires Voiced(st)
    ensures Voiced(OnEvent(p, max, st, ev, s).0)
  {
    SeenSnoc(st.seen, ev);
    TakeVoices(p, max, st.(seen := st.seen + [ev]), ev, s);
    EventSeen(p, max, st.(seen := st.seen + [ev]), ev, s);
  }

  lemma OnEventAnnounced(p: Policy, max: nat, st: State, ev: Event, s: Stage)
    requires Announced(st)
    ensures Announced(OnEvent(p, max, st, ev, s).0)
  {
    if IsText(ev) {
      CallsSnoc(st.acts, Chunk(st.seqNo, ev.text));
    } else if IsThought(ev) {
      CallsSnoc(st.acts, Thinking(st.thinkingNo, ev.thinking));
    } else if IsCall(ev) {
      OnCallAnnounced(p, max, st.(seen := st.seen + [ev]), ev.call.value, s);
    }
  }

  lemma {:induction false} ConsumeOnWire(p: Policy, max: nat, st: State, s: Stage, i: nat)
    requires i <= |s.events| && Voiced(st) && Announced(st)
    ensures var st' := Consume(p, max, st, s, i).0; Voiced(st') && Announced(st')
    decreases |s.events| - i
  {
    if i == |s.events| {
    } else {
      OnEventVoices(p, max, st, s.events[i], s);
      OnEventAnnounced(p, max, st, s.events[i], s);
      var (st', end) := OnEvent(p, max, st, s.events[i], s);
      if end.Going? { ConsumeOnWire(p, max, st', s, i + 1); }
    }
  }

  lemma CloseOnWire(st: State, text: string, finish: string, error: string)
    requires Voiced(st) && Announced(st)
    ensures Voiced(Close(st, text, finish, error)) && Announced(Close(st, text, finish, error))
  {
    var m := Message(text, if finish == "" then "stop" else finish, error, st.usage);
    TextsSnoc(st.acts, m);
    CallsSnoc(st.acts, m);
  }

  /** At every point of every turn the chunks and thoughts sent are the texts of the events
      taken, in order, and each leg has the exit and code that the wire last gave its call. */
  lemma {:induction false} EveryTurnOnWire(p: Policy, max: nat, script: seq<Stage>)
    ensures Voiced(RunTurn(p, max, script)) && Announced(RunTurn(p, max, script))
  {
    if script == [] {
    } else {
      var before, s := script[..|script| - 1], script[|script| - 1];
      EveryTurnOnWire(p, max, before);
      var st := RunTurn(p, max, before);
      if !st.done {
        ConsumeOnWire(p, max, st, s, 0);
        var (st', end) := Consume(p, max, st, s, 0);
        match end
        case Terminal(f) => CloseOnWire(st', f.text, f.finish, "");
        case Silent => CloseOnWire(st', "", "error", CLOSED_EARLY);
        case _ =>
      }
    }
  }

  // ---- Which events a stage takes, and how it ends ----

  predicate IsFinal(ev: Event)
  {
    ev.err.None? && ev.text == "" && ev.thinking == "" && ev.usage.None? && ev.call.None? && ev.final.Some?
  }

  predicate Ending(ev: Event) { ev.err.Some? || IsCall(ev) || IsFinal(ev) }

  /** The events up to the first that ends the stage. */
  function Taken(events: seq<Event>): seq<Event>
  {
    if events == [] then []
    else if Ending(events[0]) then [events[0]]
    else [events[0]] + Taken(events[1..])
  }

  function LastTaken(events: seq<Event>): Option<Event>
  {
    if Taken(events) == [] then None else Some(Taken(events)[|Taken(events)| - 1])
  }

  function LastVerdict(st: State): Verdict { if st.legs == [] then Resumed else st.legs[|st.legs| - 1].verdict }

  /** How a stage ends, by the last event taken from it. */
  ghost predicate EndsAs(end: StageEnd, last: Option<Event>, verdict: Verdict, resumeOk: bool)
  {
    if last.None? || !Ending(last.value) then end == Silent
    else if IsFinal(last.value) then end == Terminal(last.value.final.value)
    else if IsCall(last.value) && verdict.Escalated? then end == Terminal(EXHAUSTED)
    else if IsCall(last.value) && !verdict.Aborted? && resumeOk then end == Next
    else end == Terminal(FAILED)
  }

  lemma OnEventEnds(p: Policy, max: nat, st: State, ev: Event, s: Stage)
    ensures var (st', end) := OnEvent(p, max, st, ev, s);
      && st'.seen == st.seen + [ev] && (end.Going? <==> !Ending(ev))
      && (Ending(ev) ==> EndsAs(end, Some(ev), LastVerdict(st'), s.resumeOk))
  {
    EventSeen(p, max, st.(seen := st.seen + [ev]), ev, s);
  }

  lemma {:induction false} ConsumeEnds(p: Policy, max: nat, st: State, s: Stage, i: nat)
    requires i <= |s.events|
    ensures var (st', end) := Consume(p, max, st, s, i);
      && st'.seen == st.seen + Taken(s.events[i..])
      && EndsAs(end, LastTaken(s.events[i..]), LastVerdict(st'), s.resumeOk)
    decreases |s.events| - i
  {
    if i == |s.events| {
      assert s.events[i..] == [];
    } else {
      var ev := s.events[i];
      assert s.events[i..][0] == ev && s.events[i..][1..] == s.events[i + 1..];
      OnEventEnds(p, max, st, ev, s);
      var (st', end) := OnEvent(p, max, st, ev, s);
      if end.Going? {
        ConsumeEnds(p, max, st', s, i + 1);
        assert st.seen + [ev] + Taken(s.events[i + 1..]) == st.seen + ([ev] + Taken(s.events[i + 1..]));
      }
    }
  }

  /** The message that closes a turn, as the last event it took calls for. */
  ghost predicate ClosedBy(st: State, last: Option<Event>)
  {
    && st.acts != [] && st.acts[|st.acts| - 1].Message?
    && var m := st.acts[|st.acts| - 1];
       if last.None? || !Ending(last.value) then m == Message("", "error", CLOSED_EARLY, st.usage)
       else if IsFinal(last.value) then
         var f := last.value.final.value;
         m == Message(f.text, if f.finish == "" then "stop" else f.finish, "", st.usage)
       else if IsCall(last.value) && LastVerdict(st).Escalated? then m == Message(EXHAUSTED.text, "error", "", st.usage)
       else m == Message("", "error", "", st.usage)
  }

  /** One stage: it takes its events up to the first that ends it. The turn goes on exactly
      when that was a tool call that was neither aborted nor escalated and whose resume worked;
      otherwise it is closed with a final event's own text and finish, or with an error. */
  lemma StageCloses(p: Policy, max: nat, st: State, s: Stage)
    requires !st.done
    ensures var st' := RunStage(p, max, st, s); var last := LastTaken(s.events);
      && st'.seen == st.seen + Taken(s.events)
      && (!st'.done <==> last.Some? && IsCall(last.value) && s.resumeOk
                         && !LastVerdict(st').Escalated? && !LastVerdict(st').Aborted?)
      && (st'.done ==> ClosedBy(st', last))
  {
    assert s.events[0..] == s.events;
    ConsumeEnds(p, max, st, s, 0);
    ConsumeRuns(p, max, st, s, 0);
  }

  /** A turn whose last event is an error or final is over and closed as that event says. */
  ghost predicate LastCloses(st: State)
  {
    st.seen != [] ==>
      var last := st.seen[|st.seen| - 1];
      last.err.Some? || IsFinal(last) ==> st.done && ClosedBy(st, Some(last))
  }

  lemma {:induction false} LastEventCloses(p: Policy, max: nat, script: seq<Stage>)
    ensures LastCloses(RunTurn(p, max, script))
  {
    if script == [] {
    } else {
      var before, s := script[..|script| - 1], script[|script| - 1];
      LastEventCloses(p, max, before);
      var st := RunTurn(p, max, before);
      if !st.done {
        StageCloses(p, max, st, s);
        assert Taken(s.events) == [] ==> st.seen + Taken(s.events) == st.seen;
      }
    }
  }

  /** While a turn goes on every stage of it has ended in a resume that worked. */
  lemma {:induction false} GoingOnResumed(p: Policy, max: nat, script: seq<Stage>, i: nat)
    requires i < |script| && !RunTurn(p, max, script).done
    ensures script[i].resumeOk && LastTaken(script[i].events).Some? && IsCall(LastTaken(script[i].events).value)
  {
    var before := script[..|script| - 1];
    StageCloses(p, max, RunTurn(p, max, before), script[|script| - 1]);
    if i == |script| - 1 {
    } else {
      GoingOnResumed(p, max, before, i);
    }
  }

  lemma {:induction false} ConsumeRuns(p: Policy, max: nat, st: State, s: Stage, i: nat)
    requires i <= |s.events|
    ensures Consume(p, max, st, s, i).0.done == st.done
    decreases |s.events| - i
  {
    if i == |s.events| {
    } else {
      var (st', end) := OnEvent(p, max, st, s.events[i], s);
      if end.Going? { ConsumeRuns(p, max, st', s, i + 1); }
    }
  }

  // ---- Escalation on the wire ----

  /** The error reports among the acts. */
  function Reports(acts: seq<Act>): seq<Act>
  {
    if acts == [] then []
    else Reports(acts[..|acts| - 1]) + if acts[|acts| - 1].ErrorReport? then [acts[|acts| - 1]] else []
  }

  lemma ReportsSnoc(acts: seq<Act>, a: Act)
    ensures Reports(acts + [a]) == Reports(acts) + if a.ErrorReport? then [a] else []
  {
    assert (acts + [a])[..|acts|] == acts;
  }

  lemma {:induction false} ReportsConcat(acts: seq<Act>, more: seq<Act>)
    requires forall i :: 0 <= i < |more| ==> !more[i].ErrorReport?
    ensures Reports(acts + more) == Reports(acts)
  {
    if more == [] {
      assert acts + more == acts;
    } else {
      var init, last := more[..|more| - 1], more[|more| - 1];
      assert acts + more == (acts + init) + [last];
      ReportsConcat(acts, init);
      ReportsSnoc(acts + init, last);
    }
  }

  lemma CallReportsNothing(p: Policy, call: ToolCall, env: CallEnv, i: nat)
    requires i < |RunCall(p, call, env).acts|
    ensures !RunCall(p, call, env).acts[i].ErrorReport?
  {
  }

  ghost predicate LastEscalated(st: State) { st.legs != [] && st.legs[|st.legs| - 1].verdict.Escalated? }

  /** The report of the one escalation, as the operator gets it. */
  function TheReport(legs: seq<Leg>, max: nat): Act
    requires legs != []
  {
    ErrorReport(legs[|legs| - 1].call, max + 1, max + 1)
  }

  /** Inside a stage: nothing is reported unless the last leg escalated, and then its
      report is the last act and the stage ends the turn. */
  ghost predicate ReportsSo(max: nat, st: State, end: StageEnd)
  {
    if LastEscalated(st) then
      && Reports(st.acts) == [TheReport(st.legs, max)] && end == Terminal(EXHAUSTED)
      && st.acts != [] && st.acts[|st.acts| - 1] == TheReport(st.legs, max)
    else Reports(st.acts) == []
  }

  /** A leg that escalates adds its report. */
  lemma LoudLeg(max: nat, st: State, st': State, leg: Leg)
    requires Reports(st.acts) == [] && leg.verdict.Escalated?
    requires st'.legs == st.legs + [leg] && st'.acts == st.acts + [ErrorReport(leg.call, max + 1, max + 1)]
    ensures ReportsSo(max, st', Terminal(EXHAUSTED))
  {
    assert TheReport(st'.legs, max) == ErrorReport(leg.call, max + 1, max + 1);
    ReportsSnoc(st.acts, TheReport(st'.legs, max));
  }

  lemma QuietLeg(max: nat, st: State, st': State, leg: Leg, end: StageEnd)
    requires Reports(st.acts) == [] && !leg.verdict.Escalated? && st'.legs == st.legs + [leg] && st'.acts == st.acts
    ensures ReportsSo(max, st', end)
  {
  }

  lemma SettleReports(max: nat, st: State, call: ToolCall, r: CallResult, resumeOk: bool)
    requires st.used <= max && Reports(st.acts) == []
    ensures ReportsSo(max, Settle(max, st, call, r, resumeOk).0, Settle(max, st, call, r, resumeOk).1)
  {
    var (st', end) := Settle(max, st, call, r, resumeOk);
    if r.ok && Retryable(r.exit, r.code) && st.used == max {
      var leg := Leg(call, r.exit, r.code, Escalated(max + 1, max + 1));
      SettleIsEscalation(max, st, call, r, resumeOk, leg);
      LoudLeg(max, st, st', leg);
    } else {
      var leg := SettleIsQuiet(max, st, call, r, resumeOk);
      QuietLeg(max, st, st', leg, end);
    }
  }

  lemma SettleIsQuiet(max: nat, st: State, call: ToolCall, r: CallResult, resumeOk: bool) returns (leg: Leg)
    requires st.used <= max && !(r.ok && Retryable(r.exit, r.code) && st.used == max)
    ensures var st' := Settle(max, st, call, r, resumeOk).0;
      st'.acts == st.acts && st'.legs == st.legs + [leg] && !leg.verdict.Escalated?
  {
    leg := Leg(call, r.exit, r.code,
               if !r.ok then Aborted
               else if Retryable(r.exit, r.code) then ResumedWithReport(st.used + 1, max + 1) else Resumed);
  }

  lemma OnCallReports(p: Policy, max: nat, st: State, call: ToolCall, s: Stage)
    requires st.used <= max && Reports(st.acts) == []
    ensures ReportsSo(max, OnCall(p, max, st, call, s).0, OnCall(p, max, st, call, s).1)
  {
    var r := RunCall(p, call, s.env);
    forall i | 0 <= i < |r.acts| ensures !r.acts[i].ErrorReport? { CallReportsNothing(p, call, s.env, i); }
    ReportsConcat(st.acts, r.acts);
    SettleReports(max, st.(acts := st.acts + r.acts), call, r, s.resumeOk);
  }

  lemma TakeReports(p: Policy, max: nat, st: State, ev: Event, s: Stage)
    requires st.used <= max && Reports(st.acts) == [] && !LastEscalated(st)
    ensures ReportsSo(max, Take(p, max, st, ev, s).0, Take(p, max, st, ev, s).1)
  {
    if ev.err.Some? {
    } else if ev.text != "" {
      ReportsSnoc(st.acts, Chunk(st.seqNo, ev.text));
    } else if ev.thinking != "" {
      ReportsSnoc(st.acts, Thinking(st.thinkingNo, ev.thinking));
    } else if ev.usage.None? && ev.call.Some? {
      OnCallReports(p, max, st, ev.call.value, s);
    }
  }

  lemma OnEventReports(p: Policy, max: nat, st: State, ev: Event, s: Stage)
    requires TurnOk(p, max, st) && InStep(st) && Reports(st.acts) == []
    ensures ReportsSo(max, OnEvent(p, max, st, ev, s).0, OnEvent(p, max, st, ev, s).1)
  {
    BudgetLeft(p, max, st);
    TakeReports(p, max, st.(seen := st.seen + [ev]), ev, s);
  }

  lemma {:induction false} ConsumeReports(p: Policy, max: nat, st: State, s: Stage, i: nat)
    requires i <= |s.events| && TurnOk(p, max, st) && InStep(st) && !st.done && Reports(st.acts) == []
    ensures ReportsSo(max, Consume(p, max, st, s, i).0, Consume(p, max, st, s, i).1)
    decreases |s.events| - i
  {
    if i == |s.events| {
    } else {
      OnEventReports(p, max, st, s.events[i], s);
      OnEventKeeps(p, max, st, s.events[i], s);
      var (st', end) := OnEvent(p, max, st, s.events[i], s);
      if end.Going? { ConsumeReports(p, max, st', s, i + 1); }
    }
  }

  /** On the wire: a turn sends no error report unless its last leg escalated. Then it
      sends exactly one, for that call, with attempt and max attempts both max + 1, the
      turn is over, and nothing but the closing message follows. */
  ghost predicate EscalatedOnce(max: nat, st: State)
  {
    if LastEscalated(st) then
      && st.done && Reports(st.acts) == [TheReport(st.legs, max)] && |st.acts| >= 2
      && st.acts[|st.acts| - 2] == TheReport(st.legs, max)
      && st.acts[|st.acts| - 1] == Message(EXHAUSTED.text, "error", "", st.usage)
    else Reports(st.acts) == []
  }

  lemma CloseReports(max: nat, st: State, end: StageEnd, text: string, finish: string, error: string)
    requires ReportsSo(max, st, end)
    requires LastEscalated(st) ==> text == EXHAUSTED.text && finish == "error" && error == ""
    ensures EscalatedOnce(max, Close(st, text, finish, error))
  {
    var message := Message(text, if finish == "" then "stop" else finish, error, st.usage);
    ReportsSnoc(st.acts, message);
    assert Close(st, text, finish, error).acts == st.acts + [message];
    assert Reports(st.acts + [message]) == Reports(st.acts);
  }

  lemma {:induction false} EscalatesOnce(p: Policy, max: nat, script: seq<Stage>)
    ensures EscalatedOnce(max, RunTurn(p, max, script))
  {
    if script == [] {
    } else {
      var before, s := script[..|script| - 1], script[|script| - 1];
      var st := RunTurn(p, max, before);
      EscalatesOnce(p, max, before);
      EveryTurnOk(p, max, before);
      if !st.done {
        ConsumeReports(p, max, st, s, 0);
        ConsumeKeeps(p, max, st, s, 0);
        var (st', end) := Consume(p, max, st, s, 0);
        match end
        case Terminal(f) => CloseReports(max, st', end, f.text, f.finish, "");
        case Silent => CloseReports(max, st', end, "", "error", CLOSED_EARLY);
        case _ =>
      }
    }
  }

  /** How many of the calls, counted from the last, the client was told had failed in a way
      worth retrying: a non-zero exit without a code, a timeout, or out of memory. */
  function FailuresInRow(told: seq<Told>): nat
  {
    if told == [] then 0
    else
      var last := told[|told| - 1];
      if (last.code == NoCode && last.exit != 0) || last.code == Timeout || last.code == Oom then
        FailuresInRow(told[..|told| - 1]) + 1
      else 0
  }

  lemma {:induction false} StreakIsTold(legs: seq<Leg>)
    ensures Streak(legs) == FailuresInRow(LegsTold(legs))
  {
    if legs == [] {
    } else {
      StreakIsTold(legs[..|legs| - 1]);
      assert LegsTold(legs)[..|legs| - 1] == LegsTold(legs[..|legs| - 1]);
    }
  }

  /** What the budget owes the leg at i, whose call makes the k-th failure in a row. */
  ghost predicate BudgetKept(st: State, max: nat, i: nat, k: nat)
    requires i < |st.legs|
  {
    var leg := st.legs[i];
    && k <= max + 1
    && (1 <= k <= max ==> leg.verdict == ResumedWithReport(k, max + 1))
    && (k == max + 1 ==> leg.verdict == Escalated(max + 1, max + 1) && i == |st.legs| - 1
                         && st.done && Reports(st.acts) == [ErrorReport(leg.call, max + 1, max + 1)])
    && (k == 0 ==> leg.verdict == Resumed || leg.verdict == Aborted)
  }

  lemma StreakKept(p: Policy, max: nat, script: seq<Stage>, i: nat)
    requires i < |RunTurn(p, max, script).legs|
    ensures var st := RunTurn(p, max, script); BudgetKept(st, max, i, Streak(st.legs[..i + 1]))
  {
    var st := RunTurn(p, max, script);
    EveryTurnOk(p, max, script);
    EscalatesOnce(p, max, script);
    assert Handled(st.legs[i], Streak(st.legs[..i + 1]), max);
    if i < |st.legs| - 1 { assert !st.legs[i].verdict.Escalated?; }
  }

  /** The retry budget, by what the client was told: a streak of failures never exceeds
      max+1, its k-th failure is resumed with attempt k while k <= max, and the (max+1)-th
      escalates with attempt == max_attempts, sends the turn's one error report and ends the
      turn. */
  lemma RetryBudgetHolds(p: Policy, max: nat, script: seq<Stage>, i: nat)
    requires i < |RunTurn(p, max, script).legs|
    ensures var st := RunTurn(p, max, script);
      && |Calls(st.acts)| == |st.legs| && st.legs[i].call == Calls(st.acts)[i].call
      && BudgetKept(st, max, i, FailuresInRow(Calls(st.acts)[..i + 1]))
  {
    var legs := RunTurn(p, max, script).legs;
    EveryTurnOnWire(p, max, script);
    StreakKept(p, max, script, i);
    StreakIsTold(legs[..i + 1]);
    assert LegsTold(legs)[..i + 1] == LegsTold(legs[..i + 1]);
  }

  // ---- Usage ----

  /** The translator's contract: exactly one field of an event is meaningful. */
  predicate Single(ev: Event)
  {
    if ev.err.Some? then ev.text == "" && ev.thinking == "" && ev.usage.None? && ev.call.None? && ev.final.None?
    else if ev.text != "" then ev.thinking == "" && ev.usage.None? && ev.call.None? && ev.final.None?
    else if ev.thinking != "" then ev.usage.None? && ev.call.None? && ev.final.None?
    else if ev.usage.Some? then ev.call.None? && ev.final.None?
    else ev.call.Some? != ev.final.Some?
  }

  function StageUsage(ev: Event): Usage { if ev.usage.Some? then ev.usage.value else ZERO }

  function FinalUsage(ev: Event): Usage { if ev.final.Some? then ev.final.value.usage else ZERO }

  function EventUsage(ev: Event): Usage { Add(StageUsage(ev), FinalUsage(ev)) }

  function TotalUsage(events: seq<Event>): Usage
  {
    if events == [] then ZERO else Add(TotalUsage(events[..|events| - 1]), EventUsage(events[|events| - 1]))
  }

  /** The usage the switch adds, whatever fields are set. */
  function Counted(ev: Event): Usage
  {
    if ev.err.Some? || ev.text != "" || ev.thinking != "" then ZERO
    else if ev.usage.Some? then ev.usage.value
    else if ev.call.Some? then ZERO
    else if ev.final.Some? then ev.final.value.usage
    else ZERO
  }

  lemma EventCounted(p: Policy, max: nat, st: State, ev: Event, s: Stage)
    ensures Take(p, max, st, ev, s).0.usage == Add(st.usage, Counted(ev))
  {
  }

  function TotalCounted(events: seq<Event>): Usage
  {
    if events == [] then ZERO else Add(TotalCounted(events[..|events| - 1]), Counted(events[|events| - 1]))
  }

  lemma UsageStep(p: Policy, max: nat, st: State, ev: Event, s: Stage)
    requires st.usage == TotalCounted(st.seen)
    ensures var st' := OnEvent(p, max, st, ev, s).0; st'.usage == TotalCounted(st'.seen)
  {
    EventCounted(p, max, st.(seen := st.seen + [ev]), ev, s);
    EventSeen(p, max, st.(seen := st.seen + [ev]), ev, s);
    assert (st.seen + [ev])[..|st.seen|] == st.seen;
  }

  lemma {:induction false} UsageStage(p: Policy, max: nat, st: State, s: Stage, i: nat)
    requires i <= |s.events| && st.usage == TotalCounted(st.seen)
    ensures var st' := Consume(p, max, st, s, i).0; st'.usage == TotalCounted(st'.seen)
    decreases |s.events| - i
  {
    if i == |s.events| {
    } else {
      UsageStep(p, max, st, s.events[i], s);
      var (st', end) := OnEvent(p, max, st, s.events[i], s);
      if end.Going? { UsageStage(p, max, st', s, i + 1); }
    }
  }

  /** The usage a turn reports is the sum of what its switch counts, over every event it
      took off the translator's channels, over all stages, retries included. */
  lemma {:induction false} ReportedUsage(p: Policy, max: nat, script: seq<Stage>)
    ensures var st := RunTurn(p, max, script); st.usage == TotalCounted(st.seen)
  {
    if script == [] {
    } else {
      ReportedUsage(p, max, script[..|script| - 1]);
      var st := RunTurn(p, max, script[..|script| - 1]);
      if !st.done { UsageStage(p, max, st, script[|script| - 1], 0); }
    }
  }

  predicate NonNegative(u: Usage) { u.prompt >= 0 && u.candidates >= 0 && u.total >= 0 }

  predicate AtMost(a: Usage, b: Usage) { a.prompt <= b.prompt && a.candidates <= b.candidates && a.total <= b.total }

  /** Token counts as a provider reports them. */
  predicate Reported(ev: Event) { NonNegative(StageUsage(ev)) && NonNegative(FinalUsage(ev)) }

  /** No usage sits behind a field the switch tests first. */
  predicate Kept(ev: Event)
  {
    if ev.err.Some? || ev.text != "" || ev.thinking != "" then StageUsage(ev) == ZERO && FinalUsage(ev) == ZERO
    else ev.usage.Some? || ev.call.Some? ==> FinalUsage(ev) == ZERO
  }

  ghost predicate AllKept(events: seq<Event>) { forall i :: 0 <= i < |events| ==> Kept(events[i]) }

  lemma CountedWithin(ev: Event)
    requires Reported(ev)
    ensures AtMost(Counted(ev), EventUsage(ev)) && (Counted(ev) == EventUsage(ev) <==> Kept(ev))
  {
    var c, u, f := Counted(ev), StageUsage(ev), FinalUsage(ev);
    assert c == ZERO || (c == u && ev.usage.Some?) || (c == f && u == ZERO);
    PartWithin(c, u, f);
  }

  lemma PartWithin(c: Usage, u: Usage, f: Usage)
    requires NonNegative(u) && NonNegative(f) && (c == ZERO || c == u || c == f)
    ensures AtMost(c, Add(u, f))
    ensures c == ZERO ==> (c == Add(u, f) <==> u == ZERO && f == ZERO)
    ensures c == u ==> (c == Add(u, f) <==> f == ZERO)
    ensures c == f ==> (c == Add(u, f) <==> u == ZERO)
  {
    SumFields(u, f);
    if c == ZERO {
      SameFields(ZERO, Add(u, f));
    } else if c == u {
      SameFields(u, Add(u, f));
    } else {
      SameFields(f, Add(u, f));
    }
    SameFields(u, ZERO);
    SameFields(f, ZERO);
    SameFields(u, f);
  }

  lemma SameFields(a: Usage, b: Usage)
    ensures a == b <==> a.prompt == b.prompt && a.candidates == b.candidates && a.total == b.total
  {
  }

  lemma SumFields(u: Usage, f: Usage)
    ensures var s := Add(u, f);
      s.prompt == u.prompt + f.prompt && s.candidates == u.candidates + f.candidates && s.total == u.total + f.total
  {
  }

  lemma AddsUp(a: Usage, b: Usage, c: Usage, d: Usage)
    requires AtMost(a, b) && AtMost(c, d)
    ensures AtMost(Add(a, c), Add(b, d)) && (Add(a, c) == Add(b, d) <==> a == b && c == d)
  {
  }

  lemma AllKeptSplit(events: seq<Event>)
    requires events != []
    ensures AllKept(events) <==> AllKept(events[..|events| - 1]) && Kept(events[|events| - 1])
  {
    var front := events[..|events| - 1];
    assert forall i :: 0 <= i < |front| ==> front[i] == events[i];
  }

  lemma {:induction false} CountedAtMost(events: seq<Event>)
    requires forall i :: 0 <= i < |events| ==> Reported(events[i])
    ensures AtMost(TotalCounted(events), TotalUsage(events))
    ensures TotalCounted(events) == TotalUsage(events) <==> AllKept(events)
  {
    if events == [] {
    } else {
      var front, last := events[..|events| - 1], events[|events| - 1];
      CountedAtMost(front);
      CountedWithin(last);
      AllKeptSplit(events);
      AddsUp(TotalCounted(front), TotalUsage(front), Counted(last), EventUsage(last));
    }
  }

  /** Exactly when the reported usage is all the usage the events carried: when no event
      carries usage behind a field the switch tests first. */
  lemma UsageExactIff(p: Policy, max: nat, script: seq<Stage>)
    requires forall i :: 0 <= i < |RunTurn(p, max, script).seen| ==> Reported(RunTurn(p, max, script).seen[i])
    ensures var st := RunTurn(p, max, script);
      st.usage == TotalUsage(st.seen) <==> AllKept(st.seen)
  {
    ReportedUsage(p, max, script);
    CountedAtMost(RunTurn(p, max, script).seen);
  }

  /** Events that keep the translator's contract lose nothing. */
  lemma ContractCountsAll(p: Policy, max: nat, script: seq<Stage>)
    requires forall i :: 0 <= i < |RunTurn(p, max, script).seen| ==> Single(RunTurn(p, max, script).seen[i])
    ensures var st := RunTurn(p, max, script); st.usage == TotalUsage(st.seen)
  {
    ReportedUsage(p, max, script);
    SinglesCounted(RunTurn(p, max, script).seen);
  }

  lemma SingleKept(ev: Event)
    requires Single(ev)
    ensures Kept(ev) && Counted(ev) == EventUsage(ev)
  {
  }

  lemma {:induction false} SinglesCounted(events: seq<Event>)
    requires forall i :: 0 <= i < |events| ==> Single(events[i])
    ensures TotalCounted(events) == TotalUsage(events)
  {
    if events == [] {
    } else {
      SinglesCounted(events[..|events| - 1]);
      SingleKept(events[|events| - 1]);
    }
  }

  const CLOSED_EARLY := "translator closed without final message"

  /** A translator's Err ends the turn with an empty error text: the only error a turn's
      message ever names is that the translator stopped without a final message. */
  lemma {:induction false} MessageErrors(p: Policy, max: nat, script: seq<Stage>)
    ensures forall i :: 0 <= i < |RunTurn(p, max, script).acts| && RunTurn(p, max, script).acts[i].Message? ==>
      RunTurn(p, max, script).acts[i].error in {"", CLOSED_EARLY}
  {
    EveryTurnOk(p, max, script);
    if script == [] {
    } else {
      var before := script[..|script| - 1];
      var st := RunTurn(p, max, before);
      if st.done {
        MessageErrors(p, max, before);
      } else {
        EveryTurnOk(p, max, before);
        ConsumeKeeps(p, max, st, script[|script| - 1], 0);
      }
    }
  }

  /** A turn whose last event is a translator's error is over, and whatever the error says
      its message has no text and no error. */
  lemma ErrTextLost(p: Policy, max: nat, script: seq<Stage>)
    ensures var st := RunTurn(p, max, script);
      st.seen != [] && st.seen[|st.seen| - 1].err.Some? ==>
        st.done && st.acts != [] && st.acts[|st.acts| - 1] == Message("", "error", "", st.usage)
  {
    LastEventCloses(p, max, script);
  }

  // ---- Approval, joined to the approver ----

  /** The answers of a turn come from the approver: an answer read for an approval id
      is the answer of a waiter on that id's channel. */
  ghost predicate AnswersFrom(acts: seq<Act>, a: Approver.State)
  {
    forall i :: 0 <= i < |acts| && acts[i].ApprovalAnswer? && acts[i].answer.Granted? ==>
      exists c :: 0 <= c < |a.chans| && c < |a.waiters| && a.chans[c].id == acts[i].approvalId
                  && a.waiters[c] == Approver.Answered(Approver.Granted)
  }

  /** The dispatch at i: its call's approval was requested at q, and the first answer
      sent to that request's channel c was a grant. */
  ghost predicate ApprovedBy(acts: seq<Act>, a: Approver.State, i: nat, q: int, c: int)
  {
    && 0 <= q < i < |acts| && acts[i].Dispatched? && acts[q].ApprovalRequest? && acts[q].call == acts[i].call
    && 0 <= c < |a.chans| && a.chans[c].id == acts[q].approvalId
    && a.chans[c].sent != [] && a.chans[c].sent[0]
  }

  /** No tool that needs approval is ever dispatched unless, for that same call, an
      approval was requested and the first answer the operator's router sent for it
      was a grant. */
  lemma DispatchWasApproved(p: Policy, max: nat, script: seq<Stage>,
                            steps: seq<Approver.Step>, a: Approver.State, i: nat)
    requires Approver.Runs(Approver.INIT, steps, a)
    requires AnswersFrom(RunTurn(p, max, script).acts, a)
    requires i < |RunTurn(p, max, script).acts| && RunTurn(p, max, script).acts[i].Dispatched?
    requires p.required(RunTurn(p, max, script).acts[i].call.tool)
    ensures exists q, c :: ApprovedBy(RunTurn(p, max, script).acts, a, i, q, c)
  {
    EveryTurnOk(p, max, script);
    ActsApproved(p, RunTurn(p, max, script).acts, steps, a, i);
  }

  lemma ActsApproved(p: Policy, acts: seq<Act>, steps: seq<Approver.Step>, a: Approver.State, i: nat)
    requires Approver.Runs(Approver.INIT, steps, a) && AnswersFrom(acts, a) && Gated(p, acts)
    requires i < |acts| && acts[i].Dispatched? && p.required(acts[i].call.tool)
    ensures exists q, c :: ApprovedBy(acts, a, i, q, c)
  {
    assert Justified(p, acts, i);
    var call := acts[i].call;
    var r :| Opened(acts, call, r, i) && exists q :: GrantedAt(acts, call, r, q, i);
    var q :| GrantedAt(acts, call, r, q, i);
    var c :| 0 <= c < |a.chans| && c < |a.waiters| && a.chans[c].id == acts[q + 1].approvalId
             && a.waiters[c] == Approver.Answered(Approver.Granted);
    Approver.FirstAnswerWins(steps, a, c);
    assert ApprovedBy(acts, a, i, q, c);
  }

  // ---- The loops ----

  /** The handler's locals and its loops. */
  class TurnRunner {
    const policy: Policy
    const budget: RetryBudget
    var seqNo: nat
    var thinkingNo: nat
    var usage: Usage
    var acts: seq<Act>
    var done: bool
    ghost var legs: seq<Leg>
    ghost var seen: seq<Event>

    ghost function Abs(): State
      reads this, budget
    {
      State(seqNo, thinkingNo, usage, budget.used, acts, legs, seen, done)
    }

    constructor (policy: Policy, maxAutoRetries: int)
      ensures Abs() == START && fresh(budget) && this.policy == policy
      ensures budget.max == if maxAutoRetries < 0 then 0 else maxAutoRetries
    {
      this.policy := policy;
      budget := new RetryBudget(maxAutoRetries);
      seqNo, thinkingNo, usage, acts, done := 0, 0, ZERO, [], false;
      legs, seen := [], [];
    }

    /** consumeStage's ToolCall case. */
    method HandleCall(call: ToolCall, s: Stage) returns (end: StageEnd)
      modifies this, budget
      ensures (Abs(), end) == OnCall(policy, budget.max, old(Abs()), call, s)
    {
      var r := RunCall(policy, call, s.env);
      acts := acts + r.acts;
      ghost var verdict := Aborted;
      if !r.ok {
        legs := legs + [Leg(call, r.exit, r.code, verdict)];
        return Terminal(FAILED);
      }
      if Retryable(r.exit, r.code) {
        var remaining := budget.Consume();
        var attempt := budget.Attempt();
        if !remaining {
          acts := acts + [ErrorReport(call, attempt, budget.max + 1)];
          legs := legs + [Leg(call, r.exit, r.code, Escalated(attempt, budget.max + 1))];
          return Terminal(EXHAUSTED);
        }
        verdict := ResumedWithReport(attempt, budget.max + 1);
      } else {
        budget.Reset();
        verdict := Resumed;
      }
      legs := legs + [Leg(call, r.exit, r.code, verdict)];
      end := if s.resumeOk then Next else Terminal(FAILED);
    }

    /** consumeStage */
    method ConsumeStage(s: Stage) returns (end: StageEnd)
      modifies this, budget
      ensures (Abs(), end) == Consume(policy, budget.max, old(Abs()), s, 0)
    {
      var i := 0;
      while i < |s.events|
        invariant 0 <= i <= |s.events|
        invariant Consume(policy, budget.max, Abs(), s, i) == Consume(policy, budget.max, old(Abs()), s, 0)
      {
        end := HandleEvent(s.events[i], s);
        if !end.Going? { return; }
        i := i + 1;
      }
      end := Silent;
    }

    method HandleEvent(ev: Event, s: Stage) returns (end: StageEnd)
      modifies this, budget
      ensures (Abs(), end) == OnEvent(policy, budget.max, old(Abs()), ev, s)
    {
      seen := seen + [ev];
      end := Going;
      if ev.err.Some? {
        end := Terminal(FAILED);
      } else if ev.text != "" {
        acts := acts + [Chunk(seqNo, ev.text)];
        seqNo := seqNo + 1;
      } else if ev.thinking != "" {
        acts := acts + [Thinking(thinkingNo, ev.thinking)];
        thinkingNo := thinkingNo + 1;
      } else if ev.usage.Some? {
        usage := Accumulate(usage, ev.usage.value);
      } else if ev.call.Some? {
        end := HandleCall(ev.call.value, s);
      } else if ev.final.Some? {
        usage := Accumulate(usage, ev.final.value.usage);
        end := Terminal(ev.final.value);
      }
    }

    method EmitMessage(text: string, finish: string, error: string)
      modifies this`acts, this`done
      ensures Abs() == Close(old(Abs()), text, finish, error)
    {
      acts := acts + [Message(text, if finish == "" then "stop" else finish, error, usage)];
      done := true;
    }

    /** runIntent.  `failure` is the error of the history store or of opening the
        translator stream, before the first stage. */
    method RunIntent(failure: Option<string>, script: seq<Stage>)
      requires Abs() == START
      modifies this, budget
      ensures failure.Some? ==> Abs() == Close(START, "", "error", failure.value)
      ensures failure.None? ==> Abs() == RunTurn(policy, budget.max, script)
    {
      if failure.Some? {
        EmitMessage("", "error", failure.value);
        return;
      }
      var i := 0;
      while i < |script| && !done
        invariant 0 <= i <= |script|
        invariant Abs() == RunTurn(policy, budget.max, script[..i])
      {
        assert script[..i + 1][..i] == script[..i];
        var end := ConsumeStage(script[i]);
        match end {
          case Terminal(f) => EmitMessage(f.text, f.finish, "");
          case Silent => EmitMessage("", "error", CLOSED_EARLY);
          case _ =>
        }
        i := i + 1;
      }
      DoneStays(policy, budget.max, script, i);
    }
  }

  lemma {:induction false} DoneStays(p: Policy, max: nat, script: seq<Stage>, i: nat)
    requires i <= |script| && (i == |script| || RunTurn(p, max, script[..i]).done)
    ensures RunTurn(p, max, script) == RunTurn(p, max, script[..i])
    decreases |script| - i
  {
    if i == |script| {
      assert script[..i] == script;
    } else {
      assert script[..i + 1][..i] == script[..i];
      DoneStays(p, max, script, i + 1);
    }
  }
}
