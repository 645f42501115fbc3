/** Human approval of tool calls (internal/middleware/approver.go) as a machine whose
    steps are the critical sections and channel operations of PolicyApprover, taken
    in any order by any number of goroutines.

    Each registration makes one channel of capacity one.  Signal looks the channel
    up under the lock and sends to it after releasing the lock, so lookup and send
    are two steps and a cancel can fall between them. */
module Approver {
  import opened Text

  datatype Answer = Granted | Denied | TimedOut | CtxCanceled | CtxDeadline | UnknownId

  /** One channel: whose registration made it, what it holds, and (as the
      specification) every answer that was ever sent to it, in order. */
  datatype Channel = Channel(id: string, held: Option<bool>, sent: seq<bool>)

  /** A signal that has found its channel and not sent yet. */
  datatype Letter = Letter(id: string, chan: nat, granted: bool)

  /** What became of the one Await on a channel. */
  datatype Waiter = NotYet | Waiting | Answered(answer: Answer)

  datatype State = State(pending: map<string, nat>, chans: seq<Channel>, letters: seq<Letter>, waiters: seq<Waiter>)

  const INIT := State(map[], [], [], [])

  datatype Step =
    | Register(id: string)
    | SignalLookup(id: string, granted: bool)
    | SignalSend(letter: nat)
    | Cancel(id: string)
    | AwaitStart(id: string)
    | AwaitReceive(chan: nat)
    | AwaitGiveUp(chan: nat, why: Answer)

  /** The steps that can be taken: letters and waiters named by a step must exist,
      and there is one Await per registration. */
  predicate Enabled(s: State, step: Step)
  {
    match step
    case SignalSend(l) => l < |s.letters| && s.letters[l].chan < |s.chans|
    case AwaitStart(id) => id in s.pending ==> s.pending[id] < |s.waiters| && s.waiters[s.pending[id]].NotYet?
    case AwaitReceive(c) => c < |s.chans| && c < |s.waiters| && s.waiters[c].Waiting? && s.chans[c].held.Some?
    case AwaitGiveUp(c, why) =>
      c < |s.waiters| && s.waiters[c].Waiting? && (why.TimedOut? || why.CtxCanceled? || why.CtxDeadline?)
    case _ => true
  }

  function Do(s: State, step: Step): State
    requires Enabled(s, step)
  {
    match step
    case Register(id) =>
      if id in s.pending then s
      else
        s.(pending := s.pending[id := |s.chans|],
           chans := s.chans + [Channel(id, None, [])], waiters := s.waiters + [NotYet])
    case SignalLookup(id, g) =>
      if id !in s.pending then s else s.(letters := s.letters + [Letter(id, s.pending[id], g)])
    case SignalSend(l) =>
      var letter := s.letters[l];
      var ch := s.chans[letter.chan];
      // a full channel drops the value without blocking
      var ch' := Channel(ch.id, if ch.held.Some? then ch.held else Some(letter.granted), ch.sent + [letter.granted]);
      s.(chans := s.chans[letter.chan := ch'], letters := s.letters[..l] + s.letters[l + 1..])
    case Cancel(id) => s.(pending := s.pending - {id})
    case AwaitStart(id) =>
      if id !in s.pending then s else s.(waiters := s.waiters[s.pending[id] := Waiting])
    case AwaitReceive(c) =>
      s.(chans := s.chans[c := s.chans[c].(held := None)],
         waiters := s.waiters[c := Answered(if s.chans[c].held.value then Granted else Denied)])
    case AwaitGiveUp(c, why) => s.(waiters := s.waiters[c := Answered(why)])
  }

  /** A run: the states it goes through are decided by its steps. */
  ghost predicate Runs(s: State, steps: seq<Step>, s': State)
    decreases |steps|
  {
    if steps == [] then s == s'
    else Enabled(s, steps[0]) && Runs(Do(s, steps[0]), steps[1..], s')
  }

  ghost predicate ChannelOk(ch: Channel, w: Waiter)
  {
    // the value held is the first one ever sent, until the waiter takes it
    && (!w.Answered? || !(w.answer.Granted? || w.answer.Denied?) ==>
          ch.held == if ch.sent == [] then None else Some(ch.sent[0]))
    // an answer is the first value sent
    && (w.Answered? && w.answer.Granted? ==> ch.sent != [] && ch.sent[0])
    && (w.Answered? && w.answer.Denied? ==> ch.sent != [] && !ch.sent[0])
  }

  ghost predicate Inv(s: State)
  {
    && |s.waiters| == |s.chans|
    && (forall id :: id in s.pending ==> s.pending[id] < |s.chans| && s.chans[s.pending[id]].id == id)
    && (forall l :: 0 <= l < |s.letters| ==>
          s.letters[l].chan < |s.chans| && s.chans[s.letters[l].chan].id == s.letters[l].id)
    && (forall c :: 0 <= c < |s.chans| ==> ChannelOk(s.chans[c], s.waiters[c]))
  }

  lemma SendKeepsInv(s: State, l: nat)
    requires Inv(s) && Enabled(s, SignalSend(l))
    ensures Inv(Do(s, SignalSend(l)))
  {
  }

  lemma AwaitKeepsInv(s: State, step: Step)
    requires Inv(s) && Enabled(s, step) && (step.AwaitStart? || step.AwaitReceive? || step.AwaitGiveUp?)
    ensures Inv(Do(s, step))
  {
  }

  lemma DoKeepsInv(s: State, step: Step)
    requires Inv(s) && Enabled(s, step)
    ensures Inv(Do(s, step))
  {
    match step
    case SignalSend(l) => SendKeepsInv(s, l);
    case AwaitStart(_) => AwaitKeepsInv(s, step);
    case AwaitReceive(_) => AwaitKeepsInv(s, step);
    case AwaitGiveUp(_, _) => AwaitKeepsInv(s, step);
    case Register(_) => RegisterKeepsInv(s, step.id);
    case _ =>
  }

  lemma RegisterKeepsInv(s: State, id: string)
    requires Inv(s)
    ensures Inv(Do(s, Register(id)))
  {
  }

  lemma {:induction false} RunKeepsInv(s: State, steps: seq<Step>, s': State)
    requires Inv(s) && Runs(s, steps, s')
    ensures Inv(s')
    decreases |steps|
  {
    if steps == [] {
    } else {
      DoKeepsInv(s, steps[0]);
      RunKeepsInv(Do(s, steps[0]), steps[1..], s');
    }
  }

  /** Approval safety: over any interleaving, Await grants only if the first answer
      sent to its registration was a grant, and denies only if it was a denial. */
  lemma FirstAnswerWins(steps: seq<Step>, s: State, c: nat)
    requires Runs(INIT, steps, s) && c < |s.chans| && c < |s.waiters|
    ensures s.waiters[c] == Answered(Granted) ==> s.chans[c].sent != [] && s.chans[c].sent[0]
    ensures s.waiters[c] == Answered(Denied) ==> s.chans[c].sent != [] && !s.chans[c].sent[0]
  {
    RunKeepsInv(INIT, steps, s);
    assert ChannelOk(s.chans[c], s.waiters[c]);
  }

  // ---- Which signals reach a registration ----

  /** Whether a step changes channel c or its waiter. */
  predicate Touches(s: State, step: Step, c: nat)
    requires Enabled(s, step)
  {
    match step
    case SignalSend(l) => s.letters[l].chan == c
    case AwaitStart(id) => id in s.pending && s.pending[id] == c
    case AwaitReceive(c') => c == c'
    case AwaitGiveUp(c', _) => c == c'
    case _ => false
  }

  /** Steps of other registrations leave a channel alone, an answered waiter keeps its
      answer under every step, and a channel only ever hears its own id. */
  lemma ForeignStepsHarmless(s: State, step: Step, c: nat)
    requires Inv(s) && Enabled(s, step) && c < |s.chans|
    ensures |Do(s, step).chans| >= |s.chans| && |Do(s, step).waiters| >= |s.waiters|
    ensures !Touches(s, step, c) ==> Do(s, step).chans[c] == s.chans[c] && Do(s, step).waiters[c] == s.waiters[c]
    ensures s.waiters[c].Answered? ==> Do(s, step).waiters[c] == s.waiters[c]
    ensures s.chans[c].sent <= Do(s, step).chans[c].sent
    ensures step.SignalSend? && s.letters[step.letter].chan == c ==> s.letters[step.letter].id == s.chans[c].id
  {
  }

  /** An answer, once given, is final: no later run changes it, and no later signal
      changes which answer was first. */
  lemma {:induction false} AnswerIsFinal(s: State, steps: seq<Step>, s': State, c: nat)
    requires Inv(s) && Runs(s, steps, s') && c < |s.chans|
    requires s.waiters[c].Answered?
    ensures c < |s'.chans| && c < |s'.waiters| && s'.waiters[c] == s.waiters[c] && s.chans[c].sent <= s'.chans[c].sent
    decreases |steps|
  {
    if steps == [] {
    } else {
      DoKeepsInv(s, steps[0]);
      ForeignStepsHarmless(s, steps[0], c);
      AnswerIsFinal(Do(s, steps[0]), steps[1..], s', c);
    }
  }

  /** An answer gets through: an await on a registered id waits, and the first answer then
      signalled for that id is what it returns. */
  lemma AnswerGetsThrough(s: State, id: string, granted: bool)
    requires Inv(s) && id in s.pending && s.waiters[s.pending[id]].NotYet? && s.chans[s.pending[id]].sent == []
    ensures var c := s.pending[id];
      && Enabled(s, AwaitStart(id))
      && var waiting := Do(s, AwaitStart(id));
      && waiting.waiters[c] == Waiting && !Enabled(waiting, AwaitReceive(c))
      && var found := Do(waiting, SignalLookup(id, granted));
      && |found.letters| == |s.letters| + 1 && Enabled(found, SignalSend(|s.letters|))
      && var told := Do(found, SignalSend(|s.letters|));
      && told.letters == s.letters && Enabled(told, AwaitReceive(c))
      && Do(told, AwaitReceive(c)).waiters[c] == Answered(if granted then Granted else Denied)
  {
    assert ChannelOk(s.chans[s.pending[id]], s.waiters[s.pending[id]]);
  }

  /** A wait can be given up at any time, with the reason for its answer. */
  lemma WaitCanEnd(s: State, c: nat, why: Answer)
    requires Inv(s) && c < |s.waiters| && s.waiters[c].Waiting?
    requires why.TimedOut? || why.CtxCanceled? || why.CtxDeadline?
    ensures Enabled(s, AwaitGiveUp(c, why)) && Do(s, AwaitGiveUp(c, why)).waiters[c] == Answered(why)
  {
  }

  /** A signal that comes before the await is kept for it, unless another came first. */
  lemma EarlyAnswerIsKept(s: State, id: string, first: bool, later: bool)
    requires Inv(s) && id in s.pending && s.waiters[s.pending[id]].NotYet?
    requires s.chans[s.pending[id]].sent == [] && s.letters == []
    ensures var c := s.pending[id];
      var s1 := Do(s, SignalLookup(id, first));
      && Enabled(s1, SignalSend(0)) && var s2 := Do(s1, SignalSend(0));
      var s3 := Do(s2, SignalLookup(id, later));
      && Enabled(s3, SignalSend(0)) && var s4 := Do(s3, SignalSend(0));
      && Enabled(s4, AwaitStart(id)) && Enabled(Do(s4, AwaitStart(id)), AwaitReceive(c))
      && Do(Do(s4, AwaitStart(id)), AwaitReceive(c)).waiters[c] == Answered(if first then Granted else Denied)
  {
    assert ChannelOk(s.chans[s.pending[id]], s.waiters[s.pending[id]]);
  }

  // ---- The object ----

  /** PolicyApprover.  Every method is one atomic section of the source. */
  class PolicyApprover {
    const autoGrant: bool
    var requiredTools: set<string>
    var pending: map<string, nat>
    var chans: seq<Channel>
    var letters: seq<Letter>
    var waiters: seq<Waiter>

    ghost function Abs(): State
      reads this
    {
      State(pending, chans, letters, waiters)
    }

    ghost predicate Valid() reads this { Inv(Abs()) }

    predicate RequiresApproval(tool: string) reads this { !autoGrant && tool in requiredTools }

    constructor (required: seq<string>, autoGrant: bool)
      ensures Valid() && Abs() == INIT && this.autoGrant == autoGrant
      ensures requiredTools == NonEmpty(required)
      ensures forall tool :: RequiresApproval(tool) <==> !autoGrant && tool != "" && tool in required
    {
      this.autoGrant := autoGrant;
      requiredTools := {};
      pending, chans, letters, waiters := map[], [], [], [];
      new;
      AddRequired(required);
    }

    method AddRequired(names: seq<string>)
      modifies this`requiredTools
      ensures requiredTools == old(requiredTools) + NonEmpty(names)
      ensures forall tool :: RequiresApproval(tool) <==>
        old(RequiresApproval(tool)) || (!autoGrant && tool != "" && tool in names)
    {
      var i := 0;
      while i < |names|
        invariant 0 <= i <= |names|
        invariant requiredTools == old(requiredTools) + NonEmpty(names[..i])
      {
        if names[i] != "" { requiredTools := requiredTools + {names[i]}; }
        assert names[..i + 1] == names[..i] + [names[i]];
        i := i + 1;
      }
      assert names[..|names|] == names;
    }

    /** A registration keeps the channel it has, or gets one that nobody has answered. */
    method RegisterId(id: string)
      requires Valid()
      modifies this`pending, this`chans, this`waiters
      ensures Valid() && Abs() == Do(old(Abs()), Register(id))
      ensures id in pending && pending[id] < |chans| && chans[pending[id]].id == id
      ensures old(id in pending) ==> chans == old(chans)
      ensures !old(id in pending) ==> chans[pending[id]].sent == [] && forall other :: other in old(pending) ==>
        other in pending && pending[other] == old(pending)[other] != pending[id]
    {
      RegisterKeepsInv(Abs(), id);
      if id !in pending {
        pending := pending[id := |chans|];
        chans := chans + [Channel(id, None, [])];
        waiters := waiters + [NotYet];
      }
    }

    /** Signal under the lock: the answer is addressed to the channel registered for its id. */
    method Lookup(id: string, granted: bool) returns (known: bool)
      requires Valid()
      modifies this`letters
      ensures Valid() && Abs() == Do(old(Abs()), SignalLookup(id, granted))
      ensures known <==> id in pending
      ensures known ==> |letters| > 0 && var l := letters[|letters| - 1];
        l.granted == granted && l.chan < |chans| && chans[l.chan].id == id
    {
      DoKeepsInv(Abs(), SignalLookup(id, granted));
      known := id in pending;
      if known { letters := letters + [Letter(id, pending[id], granted)]; }
    }

    /** Signal after the lock: the send does not block, and the first answer stays first. */
    method Send(l: nat)
      requires Valid() && l < |letters|
      modifies this`letters, this`chans
      ensures Valid() && old(Enabled(Abs(), SignalSend(l))) && Abs() == Do(old(Abs()), SignalSend(l))
      ensures var c, g := old(letters)[l].chan, old(letters)[l].granted; var was := old(chans)[c].sent;
        chans[c].sent != [] && chans[c].sent[0] == if was == [] then g else was[0]
      ensures forall c :: 0 <= c < |chans| && c != old(letters)[l].chan ==> chans[c] == old(chans)[c]
    {
      SendKeepsInv(Abs(), l);
      var letter := letters[l];
      var ch := chans[letter.chan];
      chans := chans[letter.chan :=
        Channel(ch.id, if ch.held.Some? then ch.held else Some(letter.granted), ch.sent + [letter.granted])];
      letters := letters[..l] + letters[l + 1..];
    }

    /** Await, finding its channel; an unregistered id is answered at once. */
    method BeginAwait(id: string) returns (known: bool)
      requires Valid() && Enabled(Abs(), AwaitStart(id))
      modifies this`waiters
      ensures Valid() && Abs() == Do(old(Abs()), AwaitStart(id)) && (known <==> id in pending)
      ensures if known then waiters[pending[id]] == Waiting else waiters == old(waiters)
    {
      AwaitKeepsInv(Abs(), AwaitStart(id));
      known := id in pending;
      if known { waiters := waiters[pending[id] := Waiting]; }
    }

    /** Await's select taking the channel: it grants exactly when the first answer was a grant. */
    method Receive(c: nat) returns (granted: bool)
      requires Valid() && Enabled(Abs(), AwaitReceive(c))
      modifies this`chans, this`waiters
      ensures Valid() && Abs() == Do(old(Abs()), AwaitReceive(c))
      ensures chans[c].sent != [] && (granted <==> chans[c].sent[0])
      ensures waiters[c] == Answered(if granted then Granted else Denied)
    {
      AwaitKeepsInv(Abs(), AwaitReceive(c));
      granted := chans[c].held.value;
      chans := chans[c := chans[c].(held := None)];
      waiters := waiters[c := Answered(if granted then Granted else Denied)];
    }

    /** Later signals no longer find the registration; what was sent and answered stays. */
    method CancelId(id: string)
      requires Valid()
      modifies this`pending
      ensures Valid() && Abs() == Do(old(Abs()), Cancel(id))
      ensures id !in pending && forall other :: other in old(pending) && other != id ==>
        other in pending && pending[other] == old(pending)[other]
    {
      DoKeepsInv(Abs(), Cancel(id));
      pending := pending - {id};
    }
  }

  ghost function NonEmpty(names: seq<string>): set<string>
  {
    set n | n in names && n != ""
  }
}
