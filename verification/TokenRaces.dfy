/** The refresh and revoke handlers running beside each other (internal/wsserver/
    auth_handlers.go). A handler first parses its token and later writes the revocation;
    nothing holds a lock from one to the other, so other handlers, the clock and the
    janitor move in between. Revocation writes succeed here; what a failing one allows is
    TokenRevocation.ExchangeAgainIff. */
module TokenRaces {
  import opened Text
  import Tokens = TokenRevocation

  /** A handler between its parse and its write: the token it accepted, whether it is to
      be exchanged, and how many exchanges had been made when it was parsed. */
  datatype Handler = Handler(t: Tokens.Token, refresh: bool, since: nat)

  /** base.exchanged lists the exchanges in the order of their writes; since has for each
      how many were made when its token was parsed. */
  datatype State = State(base: Tokens.State, waiting: seq<Handler>, since: seq<nat>)

  /** signs is whether the new pair is signed; a revoke handler signs nothing. */
  datatype Step = Tick(later: nat) | Prune | Parse(t: Tokens.Token, refresh: bool) | Write(k: nat, signs: bool)

  function Start(now: nat): State { State(Tokens.Start(now), [], []) }

  predicate Accepts(c: Tokens.Config, s: Tokens.State, t: Tokens.Token, refresh: bool)
  {
    if refresh then Tokens.RefreshSpec(c.secrets, t, s.now, s.revoked).Ok?
    else Tokens.ParseSpec(c.secrets, t, s.now, s.revoked).Ok? && t.claims.jti != ""
  }

  /** A jti is given to one token, so it has one expiry. */
  predicate Minted(expiry: string -> int, t: Tokens.Token)
  {
    t.claims.jti != "" && t.claims.exp.Some? ==> t.claims.exp.value == expiry(t.claims.jti)
  }

  predicate Enabled(expiry: string -> int, s: State, step: Step)
  {
    match step
    case Tick(later) => s.base.now <= later
    case Prune => true
    case Parse(t, _) => Minted(expiry, t)
    case Write(k, _) => k < |s.waiting| && s.waiting[k].t.claims.exp.Some?
  }

  function Do(c: Tokens.Config, expiry: string -> int, s: State, step: Step): State
    requires Enabled(expiry, s, step)
  {
    match step
    case Tick(later) => s.(base := Tokens.Do(c, s.base, Tokens.Tick(later)))
    case Prune => s.(base := Tokens.Do(c, s.base, Tokens.Prune))
    case Parse(t, refresh) =>
      if !Accepts(c, s.base, t, refresh) then s
      else s.(waiting := s.waiting + [Handler(t, refresh, |s.base.exchanged|)])
    case Write(k, signs) =>
      var h := s.waiting[k];
      var left := s.waiting[..k] + s.waiting[k + 1..];
      if h.refresh && !signs then s.(waiting := left) else Written(c, s.(waiting := left), h)
  }

  function Written(c: Tokens.Config, s: State, h: Handler): State
    requires h.t.claims.exp.Some?
  {
    var base := Tokens.Spend(c, s.base, h.t, true);
    if h.refresh then s.(base := base.(exchanged := s.base.exchanged + [h.t]), since := s.since + [h.since])
    else s.(base := base)
  }

  ghost predicate Runs(c: Tokens.Config, expiry: string -> int, s: State, steps: seq<Step>, s': State)
    decreases |steps|
  {
    if steps == [] then s == s'
    else Enabled(expiry, s, steps[0]) && Runs(c, expiry, Do(c, expiry, s, steps[0]), steps[1..], s')
  }

  // ---- What every run keeps ----

  /** The token is none of the first n exchanged, unless it has no jti. */
  ghost predicate NotAmong(exchanged: seq<Tokens.Token>, n: nat, t: Tokens.Token)
  {
    n <= |exchanged| && (t.claims.jti != "" ==> t !in exchanged[..n])
  }

  /** A waiting handler's token was good when it was parsed. */
  ghost predicate Parsed(expiry: string -> int, exchanged: seq<Tokens.Token>, h: Handler)
  {
    && h.t.claims.exp.Some? && h.t.claims.exp.value > 0 && Minted(expiry, h.t)
    && NotAmong(exchanged, h.since, h.t)
  }

  ghost predicate SpentBlocked(c: Tokens.Config, expiry: string -> int, base: Tokens.State)
  {
    && (forall t :: t in base.spent ==> Tokens.Blocked(c.backend, base, t) && Minted(expiry, t))
    && (forall k :: 0 <= k < |base.exchanged| && base.exchanged[k].claims.jti != "" ==> base.exchanged[k] in base.spent)
  }

  ghost predicate Inv(c: Tokens.Config, expiry: string -> int, s: State)
  {
    && SpentBlocked(c, expiry, s.base) && |s.since| == |s.base.exchanged|
    && (forall k :: 0 <= k < |s.waiting| ==> Parsed(expiry, s.base.exchanged, s.waiting[k]))
    && (forall j :: 0 <= j < |s.since| ==> NotAmong(s.base.exchanged, s.since[j], s.base.exchanged[j]))
  }

  lemma TickKeeps(c: Tokens.Config, expiry: string -> int, s: State, later: nat)
    requires Inv(c, expiry, s) && s.base.now <= later
    ensures Inv(c, expiry, Do(c, expiry, s, Tick(later)))
  {
    var base := Do(c, expiry, s, Tick(later)).base;
    forall t | t in base.spent ensures Tokens.Blocked(c.backend, base, t) {
      assert Tokens.Blocked(c.backend, s.base, t);
    }
  }

  lemma PruneKeeps(c: Tokens.Config, expiry: string -> int, s: State)
    requires Inv(c, expiry, s)
    ensures Inv(c, expiry, Do(c, expiry, s, Prune))
  {
    var base := Do(c, expiry, s, Prune).base;
    forall t | t in base.spent ensures Tokens.Blocked(c.backend, base, t) {
      assert Tokens.Blocked(c.backend, s.base, t);
    }
  }

  lemma ParseKeeps(c: Tokens.Config, expiry: string -> int, s: State, t: Tokens.Token, refresh: bool)
    requires Inv(c, expiry, s) && Minted(expiry, t) && Accepts(c, s.base, t, refresh)
    ensures Parsed(expiry, s.base.exchanged, Handler(t, refresh, |s.base.exchanged|))
  {
    if t in s.base.spent { Tokens.BlockedNeverParses(c, s.base, t); }
    assert s.base.exchanged[..|s.base.exchanged|] == s.base.exchanged;
  }

  /** The write lists its token and overwrites no other entry: one jti, one expiry. */
  lemma SpendKeeps(c: Tokens.Config, expiry: string -> int, base: Tokens.State, h: Handler)
    requires c.backend != Tokens.Noop && SpentBlocked(c, expiry, base) && Parsed(expiry, base.exchanged, h)
    ensures SpentBlocked(c, expiry, Tokens.Spend(c, base, h.t, true))
  {
    var after := Tokens.Spend(c, base, h.t, true);
    forall t | t in after.spent ensures Tokens.Blocked(c.backend, after, t) && Minted(expiry, t) {
      assert t in base.spent ==> Tokens.Blocked(c.backend, base, t) && Minted(expiry, t);
    }
  }

  lemma NotAmongLonger(exchanged: seq<Tokens.Token>, u: Tokens.Token, n: nat, t: Tokens.Token)
    requires NotAmong(exchanged, n, t)
    ensures NotAmong(exchanged + [u], n, t)
  {
    assert (exchanged + [u])[..n] == exchanged[..n];
  }

  lemma WrittenKeeps(c: Tokens.Config, expiry: string -> int, s: State, h: Handler)
    requires c.backend != Tokens.Noop && Inv(c, expiry, s) && Parsed(expiry, s.base.exchanged, h)
    ensures Inv(c, expiry, Written(c, s, h))
  {
    SpendKeeps(c, expiry, s.base, h);
    var s' := Written(c, s, h);
    if h.refresh {
      forall k | 0 <= k < |s'.waiting| ensures Parsed(expiry, s'.base.exchanged, s'.waiting[k]) {
        NotAmongLonger(s.base.exchanged, h.t, s.waiting[k].since, s.waiting[k].t);
      }
      forall j | 0 <= j < |s'.since| ensures NotAmong(s'.base.exchanged, s'.since[j], s'.base.exchanged[j]) {
        NotAmongLonger(s.base.exchanged, h.t, s'.since[j], s'.base.exchanged[j]);
      }
    }
  }

  lemma DoKeepsInv(c: Tokens.Config, expiry: string -> int, s: State, step: Step)
    requires c.backend != Tokens.Noop && Inv(c, expiry, s) && Enabled(expiry, s, step)
    ensures Inv(c, expiry, Do(c, expiry, s, step))
  {
    match step
    case Tick(later) => TickKeeps(c, expiry, s, later);
    case Prune => PruneKeeps(c, expiry, s);
    case Parse(t, refresh) => if Accepts(c, s.base, t, refresh) { ParseKeeps(c, expiry, s, t, refresh); }
    case Write(k, signs) =>
      var left := s.(waiting := s.waiting[..k] + s.waiting[k + 1..]);
      assert Inv(c, expiry, left);
      if !s.waiting[k].refresh || signs { WrittenKeeps(c, expiry, left, s.waiting[k]); }
  }

  lemma {:induction false} RunKeepsInv(c: Tokens.Config, expiry: string -> int, s: State, steps: seq<Step>, s': State)
    requires c.backend != Tokens.Noop && Inv(c, expiry, s) && Runs(c, expiry, s, steps, s')
    ensures Inv(c, expiry, s') && s.base.spent <= s'.base.spent
    decreases |steps|
  {
    if steps == [] {
    } else {
      DoKeepsInv(c, expiry, s, steps[0]);
      RunKeepsInv(c, expiry, Do(c, expiry, s, steps[0]), steps[1..], s');
    }
  }

  // ---- The promises ----

  /** Exchange j is a second one of the token of exchange i, which it parsed before that
      one's write. */
  ghost predicate Overlapped(s: State, i: nat, j: nat)
  {
    && i < j < |s.base.exchanged| == |s.since| && s.since[j] <= i
    && s.base.exchanged[i] == s.base.exchanged[j] && s.base.exchanged[j].claims.jti != ""
  }

  lemma FirstAmong(exchanged: seq<Tokens.Token>, n: nat, i: nat)
    requires i < |exchanged| && exchanged[i].claims.jti != ""
    ensures NotAmong(exchanged, n, exchanged[i]) ==> n <= i
  {
    if i < n <= |exchanged| { assert exchanged[..n][i] == exchanged[i]; }
  }

  /** Over every interleaving, a token with a jti is exchanged twice exactly when two of its
      requests overlapped: each had parsed it before the other one's write. */
  lemma TwiceIffOverlapped(c: Tokens.Config, expiry: string -> int, now: nat, steps: seq<Step>, s: State)
    requires c.backend != Tokens.Noop && Runs(c, expiry, Start(now), steps, s)
    ensures !Tokens.OnceEach(s.base.exchanged) <==> exists i, j :: Overlapped(s, i, j)
  {
    RunKeepsInv(c, expiry, Start(now), steps, s);
    if !Tokens.OnceEach(s.base.exchanged) {
      var i, j :| 0 <= i < j < |s.base.exchanged| && s.base.exchanged[i] == s.base.exchanged[j]
                  && s.base.exchanged[i].claims.jti != "";
      assert NotAmong(s.base.exchanged, s.since[j], s.base.exchanged[j]);
      FirstAmong(s.base.exchanged, s.since[j], i);
      assert Overlapped(s, i, j);
    }
  }

  /** Two requests with one good refresh token that both parse before either writes are
      both answered with a new pair. */
  lemma OverlapExchangesTwice(c: Tokens.Config, expiry: string -> int, now: nat, t: Tokens.Token)
    requires Minted(expiry, t) && Tokens.RefreshSpec(c.secrets, t, now, map[]).Ok?
    ensures exists s ::
      Runs(c, expiry, Start(now), [Parse(t, true), Parse(t, true), Write(0, true), Write(0, true)], s)
      && s.base.exchanged == [t, t]
  {
    var s1 := Do(c, expiry, Start(now), Parse(t, true));
    var s2 := Do(c, expiry, s1, Parse(t, true));
    var s4 := BothWrite(c, expiry, s2, Handler(t, true, 0));
    var writes := [Write(0, true), Write(0, true)];
    RunsCons(c, expiry, s1, Parse(t, true), writes, s4);
    RunsCons(c, expiry, Start(now), Parse(t, true), [Parse(t, true)] + writes, s4);
    assert [Parse(t, true)] + ([Parse(t, true)] + writes)
        == [Parse(t, true), Parse(t, true), Write(0, true), Write(0, true)];
  }

  lemma BothWrite(c: Tokens.Config, expiry: string -> int, s: State, h: Handler) returns (s': State)
    requires s.waiting == [h, h] && h.refresh && h.t.claims.exp.Some? && s.base.exchanged == []
    ensures Runs(c, expiry, s, [Write(0, true), Write(0, true)], s') && s'.base.exchanged == [h.t, h.t]
  {
    var s1 := Do(c, expiry, s, Write(0, true));
    assert s1.waiting == [h] && s1.base.exchanged == [h.t];
    s' := Do(c, expiry, s1, Write(0, true));
    RunsCons(c, expiry, s1, Write(0, true), [], s');
    assert [Write(0, true)] + [] == [Write(0, true)];
    RunsCons(c, expiry, s, Write(0, true), [Write(0, true)], s');
  }

  lemma RunsCons(c: Tokens.Config, expiry: string -> int, s: State, step: Step, rest: seq<Step>, s': State)
    requires Enabled(expiry, s, step) && Runs(c, expiry, Do(c, expiry, s, step), rest, s')
    ensures Runs(c, expiry, s, [step] + rest, s')
  {
    assert ([step] + rest)[1..] == rest;
  }

  /** No waiting handler's token has been exchanged, and no two wait with the same one. */
  ghost predicate Alone(s: State)
  {
    && Tokens.OnceEach(s.base.exchanged)
    && (forall k :: 0 <= k < |s.waiting| && s.waiting[k].t.claims.jti != "" ==> s.waiting[k].t !in s.base.exchanged)
    && (forall j, k :: 0 <= j < k < |s.waiting| && s.waiting[j].t == s.waiting[k].t ==> s.waiting[j].t.claims.jti == "")
  }

  /** No token is parsed while a handler is between its own parse and write of it. */
  ghost predicate RequestsApart(c: Tokens.Config, expiry: string -> int, s: State, steps: seq<Step>)
    decreases |steps|
  {
    steps == [] ||
    (&& Enabled(expiry, s, steps[0])
     && (steps[0].Parse? ==> forall k :: 0 <= k < |s.waiting| ==> s.waiting[k].t != steps[0].t)
     && RequestsApart(c, expiry, Do(c, expiry, s, steps[0]), steps[1..]))
  }

  lemma AloneStep(c: Tokens.Config, expiry: string -> int, s: State, step: Step)
    requires c.backend != Tokens.Noop && Inv(c, expiry, s) && Alone(s) && Enabled(expiry, s, step)
    requires step.Parse? ==> forall k :: 0 <= k < |s.waiting| ==> s.waiting[k].t != step.t
    ensures Alone(Do(c, expiry, s, step))
  {
    match step
    case Tick(_) =>
    case Prune =>
    case Parse(t, refresh) =>
      if Accepts(c, s.base, t, refresh) {
        if t in s.base.spent { Tokens.BlockedNeverParses(c, s.base, t); }
      }
    case Write(k, signs) =>
      var left := s.(waiting := s.waiting[..k] + s.waiting[k + 1..]);
      AloneWithout(s, k);
      if !s.waiting[k].refresh || signs { WrittenAlone(c, left, s.waiting[k]); }
  }

  lemma AloneWithout(s: State, k: nat)
    requires Alone(s) && k < |s.waiting|
    ensures var left := s.(waiting := s.waiting[..k] + s.waiting[k + 1..]); var h := s.waiting[k];
      && Alone(left) && (h.t.claims.jti != "" ==> h.t !in s.base.exchanged)
      && forall j :: 0 <= j < |left.waiting| && left.waiting[j].t == h.t ==> h.t.claims.jti == ""
  {
  }

  lemma WrittenAlone(c: Tokens.Config, s: State, h: Handler)
    requires Alone(s) && h.t.claims.exp.Some? && (h.t.claims.jti != "" ==> h.t !in s.base.exchanged)
    requires forall j :: 0 <= j < |s.waiting| && s.waiting[j].t == h.t ==> h.t.claims.jti == ""
    ensures Alone(Written(c, s, h))
  {
  }

  /** With the requests for each token apart, every token with a jti is exchanged at most
      once. */
  lemma {:induction false} RequestsApartOnce(c: Tokens.Config, expiry: string -> int, s: State,
                                             steps: seq<Step>, s': State)
    requires c.backend != Tokens.Noop && Inv(c, expiry, s) && Alone(s)
    requires Runs(c, expiry, s, steps, s') && RequestsApart(c, expiry, s, steps)
    ensures Tokens.OnceEach(s'.base.exchanged)
    decreases |steps|
  {
    if steps == [] {
    } else {
      DoKeepsInv(c, expiry, s, steps[0]);
      AloneStep(c, expiry, s, steps[0]);
      RequestsApartOnce(c, expiry, Do(c, expiry, s, steps[0]), steps[1..], s');
    }
  }

  /** From the write on the token never parses again, whatever runs beside it. */
  lemma WrittenStaysSpent(c: Tokens.Config, expiry: string -> int, now: nat, before: seq<Step>, s: State,
                          after: seq<Step>, s': State, t: Tokens.Token)
    requires c.backend != Tokens.Noop && Runs(c, expiry, Start(now), before, s) && Runs(c, expiry, s, after, s')
    requires t in s.base.spent
    ensures Tokens.ParseSpec(c.secrets, t, s'.base.now, s'.base.revoked).Err?
  {
    RunKeepsInv(c, expiry, Start(now), before, s);
    RunKeepsInv(c, expiry, s, after, s');
    Tokens.BlockedNeverParses(c, s'.base, t);
  }

  /** A revocation that nothing comes between is the one step of the sequential server. */
  lemma UninterruptedRevoke(c: Tokens.Config, expiry: string -> int, s: State, t: Tokens.Token, signs: bool)
    requires s.waiting == [] && Minted(expiry, t) && Accepts(c, s.base, t, false)
    ensures var s1 := Do(c, expiry, s, Parse(t, false));
      && Enabled(expiry, s1, Write(0, signs))
      && Do(c, expiry, s1, Write(0, signs)).base == Tokens.Do(c, s.base, Tokens.Revoke(t, true))
      && t in Do(c, expiry, s1, Write(0, signs)).base.spent && Do(c, expiry, s1, Write(0, signs)).waiting == []
  {
    var s1 := Do(c, expiry, s, Parse(t, false));
    assert s1.waiting == [Handler(t, false, |s.base.exchanged|)];
  }

  /** A request that nothing comes between is the one step of the sequential server. */
  lemma UninterruptedRequest(c: Tokens.Config, expiry: string -> int, s: State, t: Tokens.Token, signs: bool)
    requires s.waiting == [] && Minted(expiry, t) && Accepts(c, s.base, t, true)
    ensures var s1 := Do(c, expiry, s, Parse(t, true));
      && s1.waiting == [Handler(t, true, |s.base.exchanged|)] && Enabled(expiry, s1, Write(0, signs))
      && Do(c, expiry, s1, Write(0, signs)).base == Tokens.Do(c, s.base, Tokens.Refresh(t, signs, true))
      && Do(c, expiry, s1, Write(0, signs)).waiting == []
  {
    var s1 := Do(c, expiry, s, Parse(t, true));
    assert s1.waiting == [Handler(t, true, |s.base.exchanged|)];
  }
}
