/** Refresh-token rotation and the pruned revocation list (internal/auth/jwt.go,
    internal/auth/revocation.go, and the refresh and revoke steps of
    internal/wsserver/auth_handlers.go). Times are nanoseconds since the Unix epoch; the
    clock is never before it. A token is what its signature protects: the key it verifies
    under, whether its header and issuer are the required ones, and its claims. */
module TokenRevocation {
  import opened Text

  const SECOND: int := 1_000_000_000
  /** Go's zero time. */
  const ZERO_TIME: int := -62_135_596_800 * SECOND
  const HUNDRED_YEARS: int := 100 * 365 * 24 * 3600 * SECOND

  datatype Kind = KindNone | KindAccess | KindRefresh | KindOther

  datatype Claims = Claims(sub: string, sid: string, kind: Kind, jti: string, exp: Option<int>, nbf: int)

  datatype Token = Token(key: string, wellFormed: bool, claims: Claims)

  datatype ParseError = NoSecrets | Invalid | MissingSid | MissingSub | Revoked | WrongKind

  type Parsed = Result<Claims, ParseError>

  /** Which revocation list is configured. */
  datatype Backend = Noop | Memory | SQLite

  // ---- Parsing ----

  /** One attempt of the JWT library with one key; an expiry is required and the token is
      valid strictly before it. */
  predicate Verifies(secret: string, t: Token, now: nat)
  {
    t.wellFormed && t.key == secret && t.claims.exp.Some? && t.claims.nbf <= now < t.claims.exp.value
  }

  /** NewVerifierWithSecrets keeps the non-empty secrets. */
  function CleanSecrets(secrets: seq<string>): (r: seq<string>)
    ensures forall s :: s in r <==> s in secrets && s != ""
  {
    if secrets == [] then []
    else (if secrets[0] == "" then [] else [secrets[0]]) + CleanSecrets(secrets[1..])
  }

  /** What parseCtx answers, stated without its loop. */
  function ParseSpec(secrets: seq<string>, t: Token, now: nat, revoked: map<string, int>): Parsed
  {
    if secrets == [] then Err(NoSecrets)
    else if !exists k :: 0 <= k < |secrets| && Verifies(secrets[k], t, now) then Err(Invalid)
    else if t.claims.sid == "" then Err(MissingSid)
    else if t.claims.sub == "" then Err(MissingSub)
    else if t.claims.jti != "" && t.claims.jti in revoked then Err(Revoked)
    else Ok(t.claims)
  }

  function RefreshSpec(secrets: seq<string>, t: Token, now: nat, revoked: map<string, int>): Parsed
  {
    var p := ParseSpec(secrets, t, now, revoked);
    if p.Ok? && p.value.kind != KindRefresh then Err(WrongKind) else p
  }

  function AccessSpec(secrets: seq<string>, t: Token, now: nat, revoked: map<string, int>): Parsed
  {
    var p := ParseSpec(secrets, t, now, revoked);
    if p.Ok? && p.value.kind != KindNone && p.value.kind != KindAccess then Err(WrongKind) else p
  }

  /** What every accepted token has: one of the keys, the required header and issuer, an
      expiry it has not reached, a session and a subject, and no listed jti. */
  predicate Acceptable(secrets: seq<string>, t: Token, now: nat, revoked: map<string, int>)
  {
    && t.key in secrets && t.wellFormed && t.claims.exp.Some? && t.claims.nbf <= now < t.claims.exp.value
    && t.claims.sid != "" && t.claims.sub != "" && (t.claims.jti == "" || t.claims.jti !in revoked)
  }

  /** Exactly which tokens each parser accepts, and with which claims. */
  lemma AcceptsIff(secrets: seq<string>, t: Token, now: nat, revoked: map<string, int>)
    ensures ParseSpec(secrets, t, now, revoked).Ok? <==> Acceptable(secrets, t, now, revoked)
    ensures RefreshSpec(secrets, t, now, revoked).Ok? <==>
      Acceptable(secrets, t, now, revoked) && t.claims.kind == KindRefresh
    ensures AccessSpec(secrets, t, now, revoked).Ok? <==>
      Acceptable(secrets, t, now, revoked) && (t.claims.kind == KindNone || t.claims.kind == KindAccess)
    ensures ParseSpec(secrets, t, now, revoked).Ok? ==> ParseSpec(secrets, t, now, revoked).value == t.claims
    ensures RefreshSpec(secrets, t, now, revoked).Ok? ==> RefreshSpec(secrets, t, now, revoked).value == t.claims
    ensures AccessSpec(secrets, t, now, revoked).Ok? ==> AccessSpec(secrets, t, now, revoked).value == t.claims
  {
    if Acceptable(secrets, t, now, revoked) {
      var k :| 0 <= k < |secrets| && secrets[k] == t.key;
      assert Verifies(secrets[k], t, now);
    }
  }

  /** Why a token is refused: an acceptable one only for its kind, a revoked one as revoked
      exactly when nothing else is wrong with it. */
  lemma RefusedBecause(secrets: seq<string>, t: Token, now: nat, revoked: map<string, int>)
    ensures RefreshSpec(secrets, t, now, revoked) == Err(WrongKind) <==>
      Acceptable(secrets, t, now, revoked) && t.claims.kind != KindRefresh
    ensures ParseSpec(secrets, t, now, revoked) == Err(Revoked) <==>
      Acceptable(secrets, t, now, map[]) && t.claims.jti != "" && t.claims.jti in revoked
    ensures ParseSpec(secrets, t, now, revoked) == Err(NoSecrets) <==> secrets == []
  {
    AcceptsIff(secrets, t, now, revoked);
    AcceptsIff(secrets, t, now, map[]);
  }

  // ---- The list ----

  /** What Revoke stores for an expiry. */
  function Stored(backend: Backend, exp: int, now: nat): int
  {
    if backend == SQLite then (if exp == ZERO_TIME then (now + HUNDRED_YEARS) / SECOND else exp / SECOND) else exp
  }

  predicate Prunable(backend: Backend, stored: int, now: nat)
  {
    match backend
    case Noop => false
    case Memory => stored != ZERO_TIME && now > stored
    case SQLite => stored < now / SECOND
  }

  function RevokeIn(backend: Backend, revoked: map<string, int>, jti: string, exp: int, now: nat): map<string, int>
  {
    if backend == Noop || jti == "" then revoked else revoked[jti := Stored(backend, exp, now)]
  }

  function PruneIn(backend: Backend, revoked: map<string, int>, now: nat): map<string, int>
  {
    map j | j in revoked && !Prunable(backend, revoked[j], now) :: revoked[j]
  }

  // ---- Runs ----

  /** exchanged lists the refresh tokens exchanged so far; spent, those exchanged or
      revoked that carry a jti. */
  datatype State = State(now: nat, revoked: map<string, int>, exchanged: seq<Token>, spent: set<Token>)

  /** written is whether the list accepts the write, signs whether the new pair is signed. */
  datatype Step =
    | Tick(later: nat)
    | Refresh(t: Token, signs: bool, written: bool)
    | Revoke(t: Token, written: bool)
    | Prune

  predicate Enabled(s: State, step: Step) { step.Tick? ==> s.now <= step.later }

  datatype Config = Config(backend: Backend, secrets: seq<string>)

  function Spend(c: Config, s: State, t: Token, written: bool): State
    requires t.claims.exp.Some?
  {
    var revoked := RevokeIn(c.backend, s.revoked, t.claims.jti, t.claims.exp.value, s.now);
    var s' := if written then s.(revoked := revoked) else s;
    if t.claims.jti == "" then s' else s'.(spent := s'.spent + {t})
  }

  function Do(c: Config, s: State, step: Step): State
  {
    match step
    case Tick(later) => s.(now := later)
    case Refresh(t, signs, written) =>
      if RefreshSpec(c.secrets, t, s.now, s.revoked).Ok? && signs then
        Spend(c, s, t, written).(exchanged := s.exchanged + [t])
      else s
    case Revoke(t, written) =>
      if ParseSpec(c.secrets, t, s.now, s.revoked).Ok? && t.claims.jti != "" then Spend(c, s, t, written) else s
    case Prune => s.(revoked := PruneIn(c.backend, s.revoked, s.now))
  }

  /** Every revocation write succeeds. */
  predicate Writes(step: Step)
  {
    match step
    case Refresh(_, _, written) => written
    case Revoke(_, written) => written
    case _ => true
  }

  ghost predicate Runs(c: Config, s: State, steps: seq<Step>, s': State)
    decreases |steps|
  {
    if steps == [] then s == s'
    else Enabled(s, steps[0]) && Writes(steps[0]) && Runs(c, Do(c, s, steps[0]), steps[1..], s')
  }

  ghost predicate Expired(t: Token, now: nat) { t.claims.exp.Some? && t.claims.exp.value <= now }

  /** A spent token is past its expiry or still listed with its own expiry. */
  ghost predicate Blocked(backend: Backend, s: State, t: Token)
  {
    && t.claims.jti != "" && t.claims.exp.Some?
    && (Expired(t, s.now)
        || (t.claims.exp.value > 0 && t.claims.jti in s.revoked
            && s.revoked[t.claims.jti] == Stored(backend, t.claims.exp.value, 0)))
  }

  ghost predicate OnceEach(exchanged: seq<Token>)
  {
    forall i, j :: 0 <= i < j < |exchanged| && exchanged[i] == exchanged[j] ==> exchanged[i].claims.jti == ""
  }

  ghost predicate Inv(backend: Backend, s: State)
  {
    && (forall t :: t in s.spent ==> Blocked(backend, s, t))
    && (forall k :: 0 <= k < |s.exchanged| && s.exchanged[k].claims.jti != "" ==> s.exchanged[k] in s.spent)
    && OnceEach(s.exchanged)
  }

  /** A pruned entry belongs to a token that can no longer verify. */
  lemma PrunedIsExpired(backend: Backend, exp: int, now: nat)
    requires exp > 0 && Prunable(backend, Stored(backend, exp, 0), now)
    ensures exp < now
  {
  }

  /** An entry goes at the latest one second after its token's expiry; one without an expiry
      stays for a hundred years in the table and for good in memory. */
  lemma PrunedInTime(backend: Backend, exp: int, revokedAt: nat, now: nat)
    requires backend != Noop
    ensures exp != ZERO_TIME && exp + SECOND <= now ==> Prunable(backend, Stored(backend, exp, revokedAt), now)
    ensures exp == ZERO_TIME && now < revokedAt + HUNDRED_YEARS ==>
      !Prunable(backend, Stored(backend, exp, revokedAt), now)
    ensures exp == ZERO_TIME && backend == Memory ==> !Prunable(backend, Stored(backend, exp, revokedAt), now)
  {
  }

  lemma BlockedNeverParses(c: Config, s: State, t: Token)
    requires Blocked(c.backend, s, t)
    ensures ParseSpec(c.secrets, t, s.now, s.revoked).Err? && RefreshSpec(c.secrets, t, s.now, s.revoked).Err?
    ensures AccessSpec(c.secrets, t, s.now, s.revoked).Err?
  {
  }

  lemma SpendKeepsInv(c: Config, s: State, t: Token)
    requires c.backend != Noop && Inv(c.backend, s) && ParseSpec(c.secrets, t, s.now, s.revoked).Ok?
    ensures Inv(c.backend, Spend(c, s, t, true)) && t !in s.spent
  {
  }

  lemma PruneKeepsInv(c: Config, s: State)
    requires Inv(c.backend, s)
    ensures Inv(c.backend, Do(c, s, Prune))
  {
  }

  lemma DoKeepsInv(c: Config, s: State, step: Step)
    requires c.backend != Noop && Inv(c.backend, s) && Enabled(s, step) && Writes(step)
    ensures Inv(c.backend, Do(c, s, step))
  {
    match step
    case Tick(later) =>
      forall t | t in s.spent ensures Blocked(c.backend, Do(c, s, step), t) { assert Blocked(c.backend, s, t); }
    case Prune => PruneKeepsInv(c, s);
    case Revoke(t, _) =>
      if ParseSpec(c.secrets, t, s.now, s.revoked).Ok? && t.claims.jti != "" { SpendKeepsInv(c, s, t); }
    case Refresh(t, signs, _) => if RefreshSpec(c.secrets, t, s.now, s.revoked).Ok? && signs { SpendKeepsInv(c, s, t); }
  }

  lemma {:induction false} RunKeepsInv(c: Config, s: State, steps: seq<Step>, s': State)
    requires c.backend != Noop && Inv(c.backend, s) && Runs(c, s, steps, s')
    ensures Inv(c.backend, s') && s.spent <= s'.spent && s.now <= s'.now
    decreases |steps|
  {
    if steps == [] {
    } else {
      DoKeepsInv(c, s, steps[0]);
      RunKeepsInv(c, Do(c, s, steps[0]), steps[1..], s');
    }
  }

  function Start(now: nat): State { State(now, map[], [], {}) }

  /** Whatever happens after a token was exchanged or revoked — time, pruning, other
      exchanges — it never parses again, and no token with a jti is exchanged twice. */
  lemma SpentStaysSpent(c: Config, now: nat, before: seq<Step>, s: State, after: seq<Step>, s': State, t: Token)
    requires c.backend != Noop && Runs(c, Start(now), before, s) && Runs(c, s, after, s') && t in s.spent
    ensures ParseSpec(c.secrets, t, s'.now, s'.revoked).Err?
    ensures OnceEach(s'.exchanged)
  {
    RunKeepsInv(c, Start(now), before, s);
    RunKeepsInv(c, s, after, s');
    BlockedNeverParses(c, s', t);
  }

  /** Exactly when an exchanged token can be exchanged again at once: it has no jti, the
      list is the no-op one, or the revocation write failed. */
  lemma ExchangeAgainIff(c: Config, s: State, t: Token, written: bool)
    requires RefreshSpec(c.secrets, t, s.now, s.revoked).Ok?
    ensures var s' := Do(c, s, Refresh(t, true, written));
      RefreshSpec(c.secrets, t, s'.now, s'.revoked).Ok? <==> t.claims.jti == "" || c.backend == Noop || !written
  {
  }

  // ---- The objects ----

  /** MemoryRevocationList and SQLiteRevocationList: a table of jti and stored expiry. */
  class RevocationList {
    const backend: Backend
    var revoked: map<string, int>

    constructor (backend: Backend)
      ensures this.backend == backend && revoked == map[]
    {
      this.backend := backend;
      revoked := map[];
    }

    method Insert(jti: string, exp: int, now: nat)
      modifies this
      ensures revoked == RevokeIn(backend, old(revoked), jti, exp, now)
      ensures backend != Noop && jti != "" ==> jti in revoked && revoked[jti] == Stored(backend, exp, now)
      ensures forall j :: j != jti || jti == "" || backend == Noop ==>
        (j in revoked <==> j in old(revoked)) && (j in revoked ==> revoked[j] == old(revoked)[j])
    {
      if backend == Noop || jti == "" { return; }
      var stored := exp;
      if backend == SQLite {
        stored := exp / SECOND;
        if exp == ZERO_TIME { stored := (now + HUNDRED_YEARS) / SECOND; }
      }
      revoked := revoked[jti := stored];
    }

    method IsRevoked(jti: string) returns (r: bool)
      ensures r <==> jti != "" && jti in revoked
    {
      if jti == "" { return false; }
      return jti in revoked;
    }

    /** The pruning loop: every prunable entry goes, every other stays as it is. */
    method PruneExpired(now: nat) returns (n: nat)
      modifies this
      ensures revoked == PruneIn(backend, old(revoked), now)
      ensures forall j :: j in revoked <==> j in old(revoked) && !Prunable(backend, old(revoked)[j], now)
      ensures forall j :: j in revoked ==> revoked[j] == old(revoked)[j]
      ensures n == |old(revoked)| - |revoked|
    {
      n := 0;
      var keys := revoked.Keys;
      ghost var was := revoked;
      while keys != {}
        invariant keys <= revoked.Keys <= was.Keys && n == |was.Keys| - |revoked.Keys|
        invariant forall j :: j in was ==> (j in revoked <==> j in keys || !Prunable(backend, was[j], now))
        invariant forall j :: j in revoked ==> revoked[j] == was[j]
        decreases |keys|
      {
        var j :| j in keys;
        keys := keys - {j};
        if Prunable(backend, revoked[j], now) {
          var rest := revoked - {j};
          assert rest.Keys == revoked.Keys - {j};
          revoked := rest;
          n := n + 1;
        }
      }
    }
  }

  class AuthServer {
    const secrets: seq<string>
    const list: RevocationList
    ghost var exchanged: seq<Token>
    ghost var spent: set<Token>

    ghost function Abs(now: nat): State reads this, list { State(now, list.revoked, exchanged, spent) }

    ghost function Conf(): Config { Config(list.backend, secrets) }

    constructor (configured: seq<string>, list: RevocationList)
      ensures this.list == list && exchanged == [] && spent == {}
      ensures forall s :: s in secrets <==> s in configured && s != ""
    {
      this.secrets, this.list := CleanSecrets(configured), list;
      exchanged, spent := [], {};
    }

    /** parseCtx: the secrets are tried in order until one verifies. */
    method ParseCtx(t: Token, now: nat) returns (r: Parsed)
      ensures r == ParseSpec(secrets, t, now, list.revoked)
      ensures r.Ok? <==> Acceptable(secrets, t, now, list.revoked)
      ensures r.Ok? ==> r.value == t.claims
    {
      AcceptsIff(secrets, t, now, list.revoked);
      if |secrets| == 0 { return Err(NoSecrets); }
      var claims: Option<Claims> := None;
      for k := 0 to |secrets|
        invariant claims.None? && forall j :: 0 <= j < k ==> !Verifies(secrets[j], t, now)
      {
        if Verifies(secrets[k], t, now) {
          claims := Some(t.claims);
          break;
        }
      }
      if claims.None? { return Err(Invalid); }
      if claims.value.sid == "" { return Err(MissingSid); }
      if claims.value.sub == "" { return Err(MissingSub); }
      var revoked := list.IsRevoked(claims.value.jti);
      if claims.value.jti != "" && revoked { return Err(Revoked); }
      return Ok(claims.value);
    }

    method ParseRefresh(t: Token, now: nat) returns (r: Parsed)
      ensures r == RefreshSpec(secrets, t, now, list.revoked)
      ensures r.Ok? <==> Acceptable(secrets, t, now, list.revoked) && t.claims.kind == KindRefresh
      ensures r.Ok? ==> r.value == t.claims
    {
      r := ParseCtx(t, now);
      if r.Ok? && r.value.kind != KindRefresh { r := Err(WrongKind); }
    }

    method ParseAccess(t: Token, now: nat) returns (r: Parsed)
      ensures r == AccessSpec(secrets, t, now, list.revoked)
      ensures r.Ok? <==>
        Acceptable(secrets, t, now, list.revoked) && (t.claims.kind == KindNone || t.claims.kind == KindAccess)
      ensures r.Ok? ==> r.value == t.claims
    {
      r := ParseCtx(t, now);
      if r.Ok? && r.value.kind != KindNone && r.value.kind != KindAccess { r := Err(WrongKind); }
    }

    /** refreshHandler: a new pair exactly when the token parses as a refresh token and
        signing works, and then the presented token is revoked. */
    method RefreshHandler(t: Token, now: nat, signs: bool, written: bool) returns (minted: bool)
      modifies this, list
      ensures Abs(now) == Do(Conf(), old(Abs(now)), Refresh(t, signs, written))
      ensures minted <==> Acceptable(secrets, t, now, old(list.revoked)) && t.claims.kind == KindRefresh && signs
      ensures minted ==> exchanged == old(exchanged) + [t] && (t.claims.jti != "" ==> t in spent)
      ensures minted && t.claims.jti != "" && written && list.backend != Noop ==> t.claims.jti in list.revoked
      ensures !minted ==> list.revoked == old(list.revoked) && exchanged == old(exchanged) && spent == old(spent)
    {
      var p := ParseRefresh(t, now);
      if p.Err? || !signs { return false; }
      if p.value.jti != "" {
        if written { list.Insert(p.value.jti, p.value.exp.value, now); }
        spent := spent + {t};
      }
      exchanged := exchanged + [t];
      return true;
    }

    /** revokeHandler: true is its 204, given to a token it revokes and to one revoked before. */
    method RevokeHandler(t: Token, now: nat, written: bool) returns (done: bool)
      modifies this, list
      ensures Abs(now) == Do(Conf(), old(Abs(now)), Revoke(t, written))
      ensures done <==> Acceptable(secrets, t, now, map[]) && t.claims.jti != ""
                        && (t.claims.jti in old(list.revoked) || written)
      ensures done && list.backend != Noop ==> t.claims.jti in list.revoked
    {
      RefusedBecause(secrets, t, now, list.revoked);
      var p := ParseCtx(t, now);
      if p.Err? { return p.error == Revoked; }
      if p.value.jti == "" { return false; }
      spent := spent + {t};
      if !written { return false; }
      list.Insert(p.value.jti, p.value.exp.value, now);
      return true;
    }
  }
}
