/**
 Issuer-owned, single-use commit authority (backend/design_kernel/commit_authority.py).

 Digests and seals are free constructors over what they cover.  The clock is a parameter of
 every call.  `State` is the authority's state as a value; the class at the end keeps it in
 fields and is proved against the value functions, which the run theorems speak about.
 */
module Authority {
  import opened Graph
  import opened Digests

  const SCOPE := "canonical-design-commit"
  const VERSION := 2
  /** 30 seconds, in microseconds. */
  const MAX_LIFETIME := 30_000_000

  datatype Approval = Approval(
    id: Id, runId: Id, kind: string, subject: Digest, digest: Digest, principal: Id,
    decidedAt: int, expiresAt: Option<int>, report: Digest, verifiedPreview: Digest, gatePassed: bool)

  /** What the approval constructor demands. */
  predicate WfApproval(a: Approval) {
    a.kind == "release" && a.gatePassed && (a.expiresAt.Some? ==> a.decidedAt < a.expiresAt.value)
  }

  datatype Claims = Claims(
    scope: string, version: int, keyId: Id, projectId: Id, base: Digest, head: Digest, transactionId: Id,
    commands: seq<Digest>, preview: Digest, graph: Digest, report: Digest, verifiedPreview: Digest, gatePassed: bool,
    subject: Digest, approvalId: Id, approvalRun: Id, approvalKind: string, approvalDigest: Digest,
    approvalPrincipal: Id, approvalDecidedAt: int, approvalExpiresAt: Option<int>,
    issuedAt: int, expiresAt: int, nonce: Id)

  datatype AuthDigest = AuthDigest(claims: Claims)
  datatype Seal = Seal(secret: string, digest: AuthDigest)
  /** A capability as a caller holds it: any combination of fields may be presented. */
  datatype Capability = Capability(claims: Claims, digest: AuthDigest, seal: Seal)

  /** What the capability constructor demands of its claims. */
  predicate WfClaims(c: Claims) {
    && c.commands != [] && c.gatePassed
    && (c.approvalExpiresAt.Some? ==> c.approvalDecidedAt < c.approvalExpiresAt.value)
    && c.issuedAt < c.expiresAt
  }

  datatype Verified = Verified(capability: Capability, approval: Approval, at: int, previous: Option<AuthDigest>, token: nat)

  datatype Consumption = Consumption(claims: Claims, approval: Approval, at: int)

  datatype AuthFault = ClockRollback | Invalid | Expired | AlreadyConsumed
  datatype Outcome<+T> = Done(value: T) | Refused(fault: AuthFault)

  datatype Config = Config(keyId: Id, secret: string, principal: Id, token: nat)

  datatype State = State(
    approvals: map<Id, Approval>, seen: set<Id>, issued: map<AuthDigest, Approval>, consumed: map<Id, AuthDigest>,
    lastObserved: Option<int>, poisoned: bool)

  const INITIAL := State(map[], {}, map[], map[], None, false)

  // ---------- The clock ----------

  predicate ClockFails(s: State, now: int) {
    s.poisoned || (s.lastObserved.Some? && now < s.lastObserved.value)
  }

  /** The state after the clock has been read. */
  function Observe(s: State, now: int): State {
    if s.poisoned then s
    else if s.lastObserved.Some? && now < s.lastObserved.value then s.(poisoned := true)
    else s.(lastObserved := Some(now))
  }

  // ---------- Registry ----------

  function Register(cfg: Config, s: State, a: Approval, now: int): (State, Outcome<Approval>) {
    if !WfApproval(a) then (s, Refused(Invalid))
    else if ClockFails(s, now) then (Observe(s, now), Refused(ClockRollback))
    else
      var t := Observe(s, now);
      if a.id in t.seen || a.principal != cfg.principal || a.decidedAt > now then (t, Refused(Invalid))
      else if a.expiresAt.Some? && now >= a.expiresAt.value then (t, Refused(Expired))
      else (t.(seen := t.seen + {a.id}, approvals := t.approvals[a.id := a]), Done(a))
  }

  function Revoke(s: State, id: Id, now: int): (State, Outcome<()>) {
    if ClockFails(s, now) then (Observe(s, now), Refused(ClockRollback))
    else
      var t := Observe(s, now);
      (t.(seen := t.seen + {id}, approvals := t.approvals - {id}), Done(()))
  }

  // ---------- Issue ----------

  datatype Request = Request(
    projectId: Id, base: Digest, head: Digest, transactionId: Id, commands: seq<Digest>, preview: Digest, graph: Digest,
    approvalId: Id, lifetime: int, nonce: Id)

  function ClaimsFor(cfg: Config, r: Request, a: Approval, now: int): Claims {
    var expiry := now + r.lifetime;
    Claims(SCOPE, VERSION, cfg.keyId, r.projectId, r.base, r.head, r.transactionId, r.commands, r.preview, r.graph,
           a.report, a.verifiedPreview, a.gatePassed, a.subject, a.id, a.runId, a.kind, a.digest,
           a.principal, a.decidedAt, a.expiresAt, now,
           if a.expiresAt.Some? && a.expiresAt.value < expiry then a.expiresAt.value else expiry, r.nonce)
  }

  function Issue(cfg: Config, s: State, r: Request, now: int): (State, Outcome<Capability>) {
    if r.lifetime <= 0 || r.lifetime > MAX_LIFETIME then (s, Refused(Invalid))
    else if ClockFails(s, now) then (Observe(s, now), Refused(ClockRollback))
    else
      var t := Observe(s, now);
      if r.approvalId !in t.approvals then (t, Refused(Invalid))
      else
        var a := t.approvals[r.approvalId];
        if a.subject != ReleaseHash(r.base, r.preview, a.report) || a.verifiedPreview != r.preview then (t, Refused(Invalid))
        else if a.expiresAt.Some? && now >= a.expiresAt.value then (t, Refused(Expired))
        else if r.commands == [] then (t, Refused(Invalid))
        else
          var c := ClaimsFor(cfg, r, a, now);
          var d := AuthDigest(c);
          if !WfClaims(c) || (d in t.issued && t.issued[d] != a) then (t, Refused(Invalid))
          else (t.(issued := t.issued[d := a]), Done(Capability(c, d, Seal(cfg.secret, d))))
  }

  // ---------- Verify and consume ----------

  predicate MatchesApproval(c: Claims, a: Approval, issued: Approval) {
    && c.approvalId == a.id && a.id == issued.id && c.approvalRun == a.runId
    && c.approvalKind == a.kind && a.kind == "release"
    && c.approvalDigest == a.digest && issued.digest == a.digest
    && c.approvalPrincipal == a.principal && c.approvalDecidedAt == a.decidedAt && c.approvalExpiresAt == a.expiresAt
    && c.report == a.report && c.verifiedPreview == a.verifiedPreview && c.subject == a.subject
    && c.gatePassed && a.gatePassed
  }

  function VerifyAt(cfg: Config, s: State, k: Capability, now: int): Outcome<Verified> {
    var c := k.claims;
    if c.scope != SCOPE || c.version != VERSION || c.keyId != cfg.keyId then Refused(Invalid)
    else if k.digest != AuthDigest(c) || k.seal != Seal(cfg.secret, k.digest) then Refused(Invalid)
    else if now < c.issuedAt || now >= c.expiresAt then Refused(Expired)
    else if k.digest !in s.issued then Refused(Invalid)
    else
      var issued := s.issued[k.digest];
      if issued.id !in s.approvals || s.approvals[issued.id] != issued then Refused(Invalid)
      else if !MatchesApproval(c, issued, issued) then Refused(Invalid)
      else if issued.expiresAt.Some? && now >= issued.expiresAt.value then Refused(Expired)
      else if issued.expiresAt.Some? && c.expiresAt > issued.expiresAt.value then Refused(Invalid)
      else Done(Verified(k, issued, now, if c.nonce in s.consumed then Some(s.consumed[c.nonce]) else None, cfg.token))
  }

  function Verify(cfg: Config, s: State, k: Capability, now: int): (State, Outcome<Verified>) {
    if !WfClaims(k.claims) then (s, Refused(Invalid))
    else if ClockFails(s, now) then (Observe(s, now), Refused(ClockRollback))
    else (Observe(s, now), VerifyAt(cfg, Observe(s, now), k, now))
  }

  function Consume(cfg: Config, s: State, v: Verified, now: int): (State, Outcome<Consumption>) {
    if v.token != cfg.token then (s, Refused(Invalid))
    else if ClockFails(s, now) then (Observe(s, now), Refused(ClockRollback))
    else
      var t := Observe(s, now);
      match VerifyAt(cfg, t, v.capability, now)
      case Refused(f) => (t, Refused(f))
      case Done(current) =>
        if current.previous.Some? then (t, Refused(AlreadyConsumed))
        else
          var c := v.capability.claims;
          (t.(consumed := t.consumed[c.nonce := v.capability.digest]), Done(Consumption(c, current.approval, now)))
  }

  // ---------- Runs ----------

  datatype Call =
    | DoRegister(approval: Approval)
    | DoRevoke(id: Id)
    | DoIssue(request: Request)
    | DoVerify(capability: Capability)
    | DoConsume(verified: Verified)

  /** One call at one clock reading; every call has a next state, refused or not. */
  function After(cfg: Config, s: State, call: Call, now: int): State {
    match call
    case DoRegister(a) => Register(cfg, s, a, now).0
    case DoRevoke(id) => Revoke(s, id, now).0
    case DoIssue(r) => Issue(cfg, s, r, now).0
    case DoVerify(k) => Verify(cfg, s, k, now).0
    case DoConsume(v) => Consume(cfg, s, v, now).0
  }

  function AfterAll(cfg: Config, s: State, calls: seq<(Call, int)>): State
    decreases |calls|
  {
    if calls == [] then s else AfterAll(cfg, After(cfg, s, calls[0].0, calls[0].1), calls[1..])
  }

  /** The call reports success. */
  predicate Succeeds(cfg: Config, s: State, call: Call, now: int) {
    match call
    case DoRegister(a) => Register(cfg, s, a, now).1.Done?
    case DoRevoke(id) => Revoke(s, id, now).1.Done?
    case DoIssue(r) => Issue(cfg, s, r, now).1.Done?
    case DoVerify(k) => Verify(cfg, s, k, now).1.Done?
    case DoConsume(v) => Consume(cfg, s, v, now).1.Done?
  }

  // ---------- What every call keeps ----------

  ghost predicate IssuedOk(cfg: Config, s: State, d: AuthDigest) {
    d in s.issued ==>
      && WfApproval(s.issued[d])
      && MatchesApproval(d.claims, s.issued[d], s.issued[d])
      && d.claims.subject == ReleaseHash(d.claims.base, d.claims.preview, d.claims.report)
      && d.claims.verifiedPreview == d.claims.preview
      && d.claims.issuedAt < d.claims.expiresAt <= d.claims.issuedAt + MAX_LIFETIME
      && (s.issued[d].expiresAt.Some? ==> d.claims.expiresAt <= s.issued[d].expiresAt.value)
      && s.lastObserved.Some? && d.claims.issuedAt <= s.lastObserved.value
      && s.issued[d].principal == cfg.principal && s.issued[d].id in s.seen
      && (s.issued[d].id in s.approvals ==> s.approvals[s.issued[d].id] == s.issued[d])
  }

  ghost predicate Sound(cfg: Config, s: State) {
    && (forall id :: id in s.approvals ==>
          id in s.seen && s.approvals[id].id == id && WfApproval(s.approvals[id]) && s.approvals[id].principal == cfg.principal)
    && (forall d :: IssuedOk(cfg, s, d))
    && (forall n :: n in s.consumed ==> s.consumed[n] in s.issued && s.consumed[n].claims.nonce == n)
  }

  /** Registry, issue table and consumption table only grow; time never runs backwards. */
  ghost predicate Grows(s: State, t: State) {
    && s.seen <= t.seen
    && (forall d :: d in s.issued ==> d in t.issued && t.issued[d] == s.issued[d])
    && (forall n :: n in s.consumed ==> n in t.consumed && t.consumed[n] == s.consumed[n])
    && (s.lastObserved.Some? ==> t.lastObserved.Some? && s.lastObserved.value <= t.lastObserved.value)
    && (s.poisoned ==> t == s)
    && (forall id :: id in s.seen && id !in s.approvals ==> id !in t.approvals)
    && (forall id :: id in s.seen && id in t.approvals ==> id in s.approvals && t.approvals[id] == s.approvals[id])
  }

  lemma ObserveKeeps(cfg: Config, s: State, now: int)
    requires Sound(cfg, s)
    ensures Sound(cfg, Observe(s, now)) && Grows(s, Observe(s, now))
  {
    var t := Observe(s, now);
    forall d ensures IssuedOk(cfg, t, d) { assert IssuedOk(cfg, s, d); }
  }

  lemma RegisterKeeps(cfg: Config, s: State, a: Approval, now: int)
    requires Sound(cfg, s)
    ensures Sound(cfg, Register(cfg, s, a, now).0) && Grows(s, Register(cfg, s, a, now).0)
  {
    ObserveKeeps(cfg, s, now);
    var o, t := Observe(s, now), Register(cfg, s, a, now).0;
    forall d ensures IssuedOk(cfg, t, d) { assert IssuedOk(cfg, o, d) && IssuedOk(cfg, s, d); }
  }

  lemma RevokeKeeps(cfg: Config, s: State, id: Id, now: int)
    requires Sound(cfg, s)
    ensures Sound(cfg, Revoke(s, id, now).0) && Grows(s, Revoke(s, id, now).0)
  {
    ObserveKeeps(cfg, s, now);
    var o, t := Observe(s, now), Revoke(s, id, now).0;
    forall d ensures IssuedOk(cfg, t, d) { assert IssuedOk(cfg, o, d); }
  }

  lemma IssueKeeps(cfg: Config, s: State, r: Request, now: int)
    requires Sound(cfg, s)
    ensures Sound(cfg, Issue(cfg, s, r, now).0) && Grows(s, Issue(cfg, s, r, now).0)
  {
    ObserveKeeps(cfg, s, now);
    var o, t := Observe(s, now), Issue(cfg, s, r, now).0;
    forall d ensures IssuedOk(cfg, t, d) { assert IssuedOk(cfg, o, d) && IssuedOk(cfg, s, d); }
  }

  lemma ConsumeSound(cfg: Config, s: State, v: Verified, now: int)
    requires Sound(cfg, Observe(s, now))
    ensures Sound(cfg, Consume(cfg, s, v, now).0) || Consume(cfg, s, v, now).0 == s
  {
    var o, t := Observe(s, now), Consume(cfg, s, v, now).0;
    if t != s {
      forall d ensures IssuedOk(cfg, t, d) { assert IssuedOk(cfg, o, d); }
    }
  }

  lemma ConsumeGrows(cfg: Config, s: State, v: Verified, now: int)
    requires Grows(s, Observe(s, now))
    ensures Grows(s, Consume(cfg, s, v, now).0)
  {
  }

  lemma ConsumeKeeps(cfg: Config, s: State, v: Verified, now: int)
    requires Sound(cfg, s)
    ensures Sound(cfg, Consume(cfg, s, v, now).0) && Grows(s, Consume(cfg, s, v, now).0)
  {
    ObserveKeeps(cfg, s, now);
    ConsumeSound(cfg, s, v, now);
    ConsumeGrows(cfg, s, v, now);
  }

  lemma CallKeepsSound(cfg: Config, s: State, call: Call, now: int)
    requires Sound(cfg, s)
    ensures Sound(cfg, After(cfg, s, call, now)) && Grows(s, After(cfg, s, call, now))
  {
    match call
    case DoRegister(a) => RegisterKeeps(cfg, s, a, now);
    case DoRevoke(id) => RevokeKeeps(cfg, s, id, now);
    case DoIssue(r) => IssueKeeps(cfg, s, r, now);
    case DoVerify(k) => ObserveKeeps(cfg, s, now);
    case DoConsume(v) => ConsumeKeeps(cfg, s, v, now);
  }

  lemma GrowsTransitive(s: State, t: State, u: State)
    requires Grows(s, t) && Grows(t, u)
    ensures Grows(s, u)
  {
  }

  lemma {:induction false} RunKeepsSound(cfg: Config, s: State, calls: seq<(Call, int)>)
    requires Sound(cfg, s)
    ensures Sound(cfg, AfterAll(cfg, s, calls)) && Grows(s, AfterAll(cfg, s, calls))
    decreases |calls|
  {
    if calls != [] {
      var t := After(cfg, s, calls[0].0, calls[0].1);
      CallKeepsSound(cfg, s, calls[0].0, calls[0].1);
      RunKeepsSound(cfg, t, calls[1..]);
      GrowsTransitive(s, t, AfterAll(cfg, t, calls[1..]));
    }
  }

  // ---------- What a successful call proves, in every run ----------

  lemma InitialSound(cfg: Config)
    ensures Sound(cfg, INITIAL)
  {
  }

  /**
   Whatever happened before: a capability is consumed only while exactly the approval recorded
   when it was issued is registered, at or after issue, before both expiries, within 30 seconds,
   and with a nonce that no earlier consumption used.
   */
  lemma ConsumeIsSafe(cfg: Config, calls: seq<(Call, int)>, v: Verified, now: int)
    requires var s := AfterAll(cfg, INITIAL, calls); Consume(cfg, s, v, now).1.Done?
    ensures var s := AfterAll(cfg, INITIAL, calls);
            var c, d := v.capability.claims, AuthDigest(v.capability.claims);
            && d in s.issued && s.issued[d].id in s.approvals && s.approvals[s.issued[d].id] == s.issued[d]
            && c.issuedAt <= now < c.expiresAt
            && (s.issued[d].expiresAt.Some? ==> now < s.issued[d].expiresAt.value)
            && now - c.issuedAt < MAX_LIFETIME
            && c.nonce !in s.consumed
  {
    InitialSound(cfg);
    RunKeepsSound(cfg, INITIAL, calls);
    var s := AfterAll(cfg, INITIAL, calls);
    assert IssuedOk(cfg, s, AuthDigest(v.capability.claims));
  }

  lemma ConsumeRefusesUsed(cfg: Config, s: State, v: Verified, now: int)
    requires v.capability.claims.nonce in s.consumed
    ensures !Consume(cfg, s, v, now).1.Done?
  {
  }

  lemma ConsumeEnters(cfg: Config, s: State, v: Verified, now: int)
    requires Consume(cfg, s, v, now).1.Done?
    ensures var t := Consume(cfg, s, v, now).0; var n := v.capability.claims.nonce; n in t.consumed && t.consumed[n] == v.capability.digest
  {
  }

  /** After a consumption the nonce stays consumed by the same capability for good, so it never succeeds again. */
  lemma ConsumedOnce(cfg: Config, s: State, v: Verified, now: int, calls: seq<(Call, int)>, w: Verified, later: int)
    requires Sound(cfg, s) && Consume(cfg, s, v, now).1.Done?
    requires w.capability.claims.nonce == v.capability.claims.nonce
    ensures var t := AfterAll(cfg, Consume(cfg, s, v, now).0, calls);
            && v.capability.claims.nonce in t.consumed
            && t.consumed[v.capability.claims.nonce] == v.capability.digest
            && !Consume(cfg, t, w, later).1.Done?
  {
    ConsumeKeeps(cfg, s, v, now);
    ConsumeEnters(cfg, s, v, now);
    RunKeepsSound(cfg, Consume(cfg, s, v, now).0, calls);
    ConsumeRefusesUsed(cfg, AfterAll(cfg, Consume(cfg, s, v, now).0, calls), w, later);
  }

  /** An approval ID that was ever registered or revoked is never registered again. */
  lemma SeenNeverRegistersAgain(cfg: Config, s: State, id: Id, calls: seq<(Call, int)>, a: Approval, now: int)
    requires Sound(cfg, s) && id in s.seen && a.id == id
    ensures !Succeeds(cfg, AfterAll(cfg, s, calls), DoRegister(a), now)
  {
    RunKeepsSound(cfg, s, calls);
  }

  /** Revocation is final: no capability that rests on a revoked approval is verified or consumed later. */
  lemma RevokedNeverUsed(cfg: Config, s: State, id: Id, at: int, calls: seq<(Call, int)>, k: Capability, v: Verified, now: int)
    requires Sound(cfg, s) && Revoke(s, id, at).1.Done?
    requires k.claims.approvalId == id && v.capability.claims.approvalId == id
    ensures var t := AfterAll(cfg, Revoke(s, id, at).0, calls);
            !Verify(cfg, t, k, now).1.Done? && !Consume(cfg, t, v, now).1.Done?
  {
    RevokeKeeps(cfg, s, id, at);
    RunKeepsSound(cfg, Revoke(s, id, at).0, calls);
  }

  /** Calls that read the clock, given that their arguments pass the checks made before reading it. */
  predicate ReadsClock(cfg: Config, call: Call) {
    match call
    case DoRegister(a) => WfApproval(a)
    case DoRevoke(_) => true
    case DoIssue(r) => 0 < r.lifetime <= MAX_LIFETIME
    case DoVerify(k) => WfClaims(k.claims)
    case DoConsume(v) => v.token == cfg.token
  }

  /** A successful call leaves its own reading behind as the last one. */
  lemma SuccessIsRead(cfg: Config, s: State, call: Call, now: int)
    requires Succeeds(cfg, s, call, now)
    ensures s.lastObserved.Some? ==> s.lastObserved.value <= now
    ensures After(cfg, s, call, now).lastObserved == Some(now) && !After(cfg, s, call, now).poisoned
  {
  }

  /** Of two successful calls of one run, the later one saw no earlier time, whatever came before, between and after. */
  lemma TimeNeverDecreases(cfg: Config, before: seq<(Call, int)>, first: Call, now: int, between: seq<(Call, int)>, second: Call, later: int)
    requires var s := AfterAll(cfg, INITIAL, before); Succeeds(cfg, s, first, now)
    requires var s := AfterAll(cfg, INITIAL, before); Succeeds(cfg, AfterAll(cfg, After(cfg, s, first, now), between), second, later)
    ensures now <= later
  {
    InitialSound(cfg);
    RunKeepsSound(cfg, INITIAL, before);
    var s := AfterAll(cfg, INITIAL, before);
    CallKeepsSound(cfg, s, first, now);
    SuccessIsRead(cfg, s, first, now);
    RunKeepsSound(cfg, After(cfg, s, first, now), between);
    SuccessIsRead(cfg, AfterAll(cfg, After(cfg, s, first, now), between), second, later);
  }

  /** One backward reading poisons the authority: every later call fails and changes nothing. */
  lemma RollbackPoisons(cfg: Config, s: State, call: Call, now: int, calls: seq<(Call, int)>, next: Call, later: int)
    requires Sound(cfg, s) && ReadsClock(cfg, call) && s.lastObserved.Some? && now < s.lastObserved.value
    ensures var t := After(cfg, s, call, now);
            t.poisoned && AfterAll(cfg, t, calls) == t && !Succeeds(cfg, AfterAll(cfg, t, calls), next, later)
  {
    CallKeepsSound(cfg, s, call, now);
    RunKeepsSound(cfg, After(cfg, s, call, now), calls);
  }

  // ---------- Exactly when each call succeeds ----------

  /** The clock can be read: no earlier reading is ahead of it and none ever ran back. */
  predicate Timely(s: State, now: int) { !s.poisoned && (s.lastObserved.Some? ==> s.lastObserved.value <= now) }

  /** An approval is registered exactly once, from the configured principal, after it was decided and before it expires. */
  lemma RegisterExactly(cfg: Config, s: State, a: Approval, now: int)
    ensures Register(cfg, s, a, now).1.Done? <==>
      && WfApproval(a) && Timely(s, now) && a.id !in s.seen && a.principal == cfg.principal
      && a.decidedAt <= now && (a.expiresAt.Some? ==> now < a.expiresAt.value)
    ensures Register(cfg, s, a, now).1.Done? ==>
      Register(cfg, s, a, now).0 == s.(lastObserved := Some(now), seen := s.seen + {a.id}, approvals := s.approvals[a.id := a])
    ensures Register(cfg, s, a, now).1.Refused? ==>
      var t := Register(cfg, s, a, now).0; t.seen == s.seen && t.approvals == s.approvals && t.issued == s.issued && t.consumed == s.consumed
  {
  }

  /** Revoking always succeeds while the clock can be read; the ID is closed whether or not it was registered. */
  lemma RevokeExactly(s: State, id: Id, now: int)
    ensures Revoke(s, id, now).1.Done? <==> Timely(s, now)
    ensures Timely(s, now) ==>
      Revoke(s, id, now).0 == s.(lastObserved := Some(now), seen := s.seen + {id}, approvals := s.approvals - {id})
  {
  }

  /** The registered approval covers exactly this base and preview. */
  predicate Covers(a: Approval, base: Digest, preview: Digest) {
    a.subject == ReleaseHash(base, preview, a.report) && a.verifiedPreview == preview
  }

  /** The claims carry the request as it was made and the approval as it was registered. */
  predicate Carries(cfg: Config, c: Claims, r: Request, a: Approval, now: int) {
    && c.scope == "canonical-design-commit" && c.version == 2 && c.keyId == cfg.keyId
    && c.projectId == r.projectId && c.base == r.base && c.head == r.head && c.transactionId == r.transactionId
    && c.commands == r.commands && c.preview == r.preview && c.graph == r.graph && c.nonce == r.nonce
    && c.report == a.report && c.verifiedPreview == a.verifiedPreview && c.subject == a.subject && c.gatePassed == a.gatePassed
    && c.approvalId == a.id && c.approvalRun == a.runId && c.approvalKind == a.kind && c.approvalDigest == a.digest
    && c.approvalPrincipal == a.principal && c.approvalDecidedAt == a.decidedAt && c.approvalExpiresAt == a.expiresAt
    && c.issuedAt == now && c.issuedAt < c.expiresAt <= now + r.lifetime
    && (a.expiresAt.Some? ==> c.expiresAt <= a.expiresAt.value)
    && (c.expiresAt == now + r.lifetime || a.expiresAt == Some(c.expiresAt))
  }

  /** What a request must satisfy for a capability to be issued. */
  predicate Issuable(s: State, r: Request, now: int) {
    && 0 < r.lifetime <= 30_000_000 && Timely(s, now) && r.commands != []
    && r.approvalId in s.approvals
    && var a := s.approvals[r.approvalId];
       Covers(a, r.base, r.preview) && (a.expiresAt.Some? ==> now < a.expiresAt.value)
  }

  /** In every reachable state the very same claims can only have been issued before from the very same approval. */
  lemma IssueAgain(cfg: Config, s: State, r: Request, now: int)
    requires Sound(cfg, s) && r.approvalId in s.approvals
    ensures var a := s.approvals[r.approvalId]; var d := AuthDigest(ClaimsFor(cfg, r, a, now)); d in s.issued ==> s.issued[d] == a
  {
    var d := AuthDigest(ClaimsFor(cfg, r, s.approvals[r.approvalId], now));
    assert IssuedOk(cfg, s, d);
  }

  /** In every reachable state a request is granted exactly when it satisfies that, and then carries itself and its approval. */
  lemma IssueExactly(cfg: Config, s: State, r: Request, now: int)
    requires Sound(cfg, s)
    ensures Issue(cfg, s, r, now).1.Done? <==> Issuable(s, r, now)
    ensures Issue(cfg, s, r, now).1.Done? ==>
      var (t, out) := Issue(cfg, s, r, now);
      var k, a := out.value, s.approvals[r.approvalId];
      && Carries(cfg, k.claims, r, a, now) && k.digest == AuthDigest(k.claims) && k.seal == Seal(cfg.secret, k.digest)
      && t == s.(lastObserved := Some(now), issued := s.issued[k.digest := a])
    ensures Issue(cfg, s, r, now).1.Refused? ==>
      var t := Issue(cfg, s, r, now).0; t.seen == s.seen && t.approvals == s.approvals && t.issued == s.issued && t.consumed == s.consumed
  {
    if r.approvalId in s.approvals { IssueAgain(cfg, s, r, now); }
  }

  /** The capability is genuine, in its window, and rests on the approval it was issued from. */
  predicate Authentic(cfg: Config, s: State, k: Capability, now: int) {
    var c := k.claims;
    && WfClaims(c) && Timely(s, now)
    && c.scope == "canonical-design-commit" && c.version == 2 && c.keyId == cfg.keyId
    && k.digest == AuthDigest(c) && k.seal == Seal(cfg.secret, k.digest)
    && c.issuedAt <= now < c.expiresAt
    && k.digest in s.issued
    && var a := s.issued[k.digest];
       && a.id in s.approvals && s.approvals[a.id] == a
       && c.approvalId == a.id && c.approvalRun == a.runId && c.approvalKind == "release" && a.kind == "release"
       && c.approvalDigest == a.digest && c.approvalPrincipal == a.principal
       && c.approvalDecidedAt == a.decidedAt && c.approvalExpiresAt == a.expiresAt
       && c.report == a.report && c.verifiedPreview == a.verifiedPreview && c.subject == a.subject && a.gatePassed
       && (a.expiresAt.Some? ==> now < a.expiresAt.value && c.expiresAt <= a.expiresAt.value)
  }

  lemma VerifySucceedsExactly(cfg: Config, s: State, k: Capability, now: int)
    ensures Verify(cfg, s, k, now).1.Done? <==> Authentic(cfg, s, k, now)
    ensures Verify(cfg, s, k, now).1.Done? ==>
      var (t, out) := Verify(cfg, s, k, now);
      && t == s.(lastObserved := Some(now))
      && out.value == Verified(k, s.issued[k.digest], now, if k.claims.nonce in s.consumed then Some(s.consumed[k.claims.nonce]) else None, cfg.token)
  {
  }

  /** Consuming succeeds exactly for an authentic capability verified here whose nonce is unused, and then records that use alone. */
  lemma ConsumeSucceedsExactly(cfg: Config, s: State, v: Verified, now: int)
    requires WfClaims(v.capability.claims)
    ensures Consume(cfg, s, v, now).1.Done? <==>
      v.token == cfg.token && Authentic(cfg, s, v.capability, now) && v.capability.claims.nonce !in s.consumed
    ensures Consume(cfg, s, v, now).1.Done? ==>
      var (t, out) := Consume(cfg, s, v, now);
      && t == s.(lastObserved := Some(now), consumed := s.consumed[v.capability.claims.nonce := v.capability.digest])
      && out.value == Consumption(v.capability.claims, s.issued[v.capability.digest], now)
    ensures v.token == cfg.token && Authentic(cfg, s, v.capability, now) && v.capability.claims.nonce in s.consumed ==>
      Consume(cfg, s, v, now).1 == Refused(AlreadyConsumed)
  {
  }

  // ---------- Where issued digests come from ----------

  /** The digest was issued by this call, on the approval now recorded for it. */
  ghost predicate IssuedBy(cfg: Config, d: AuthDigest, a: Approval, call: Call, now: int) {
    call.DoIssue? && Carries(cfg, d.claims, call.request, a, now) && Covers(a, call.request.base, call.request.preview)
    && call.request.approvalId == a.id && 0 < call.request.lifetime <= 30_000_000 && call.request.commands != []
  }

  lemma OneCallIssues(cfg: Config, s: State, call: Call, now: int, d: AuthDigest)
    requires Sound(cfg, s) && d in After(cfg, s, call, now).issued
    ensures (d in s.issued && After(cfg, s, call, now).issued[d] == s.issued[d]) || IssuedBy(cfg, d, After(cfg, s, call, now).issued[d], call, now)
  {
    if call.DoIssue? { IssueExactly(cfg, s, call.request, now); }
  }

  /** In every run each digest in the issue table was issued by one of its calls, for exactly that request and a covering approval. */
  lemma {:induction false} EveryDigestWasIssued(cfg: Config, s: State, calls: seq<(Call, int)>, d: AuthDigest)
    requires Sound(cfg, s) && d in AfterAll(cfg, s, calls).issued
    ensures (d in s.issued && AfterAll(cfg, s, calls).issued[d] == s.issued[d])
            || exists i :: 0 <= i < |calls| && IssuedBy(cfg, d, AfterAll(cfg, s, calls).issued[d], calls[i].0, calls[i].1)
    decreases |calls|
  {
    if calls != [] {
      var t := After(cfg, s, calls[0].0, calls[0].1);
      CallKeepsSound(cfg, s, calls[0].0, calls[0].1);
      EveryDigestWasIssued(cfg, t, calls[1..], d);
      if d in t.issued && AfterAll(cfg, t, calls[1..]).issued[d] == t.issued[d] {
        OneCallIssues(cfg, s, calls[0].0, calls[0].1, d);
      } else {
        var i :| 0 <= i < |calls[1..]| && IssuedBy(cfg, d, AfterAll(cfg, s, calls).issued[d], calls[1..][i].0, calls[1..][i].1);
        assert calls[i + 1] == calls[1..][i];
      }
    }
  }

  /** From a new authority: every issued claim is its request's own, and its subject and preview are those the approval covers. */
  lemma IssuedClaimsAreCovered(cfg: Config, calls: seq<(Call, int)>, d: AuthDigest)
    requires d in AfterAll(cfg, INITIAL, calls).issued
    ensures var a := AfterAll(cfg, INITIAL, calls).issued[d];
            exists i :: 0 <= i < |calls| && IssuedBy(cfg, d, a, calls[i].0, calls[i].1)
    ensures d.claims.subject == ReleaseHash(d.claims.base, d.claims.preview, d.claims.report) && d.claims.verifiedPreview == d.claims.preview
  {
    InitialSound(cfg);
    RunKeepsSound(cfg, INITIAL, calls);
    EveryDigestWasIssued(cfg, INITIAL, calls, d);
    assert IssuedOk(cfg, AfterAll(cfg, INITIAL, calls), d);
  }

  // ---------- The authority as an object ----------

  class CommitAuthority {
    const cfg: Config
    var approvals: map<Id, Approval>
    var seen: set<Id>
    var issued: map<AuthDigest, Approval>
    var consumed: map<Id, AuthDigest>
    var lastObserved: Option<int>
    var poisoned: bool

    function View(): State
      reads this
    {
      State(approvals, seen, issued, consumed, lastObserved, poisoned)
    }

    constructor (cfg: Config)
      ensures this.cfg == cfg && View() == INITIAL
    {
      this.cfg := cfg;
      approvals, seen, issued, consumed, lastObserved, poisoned := map[], {}, map[], map[], None, false;
    }

    method ObserveNow(now: int) returns (ok: bool)
      modifies this
      ensures View() == Observe(old(View()), now) && ok == !ClockFails(old(View()), now)
    {
      if poisoned {
        return false;
      }
      if lastObserved.Some? && now < lastObserved.value {
        poisoned := true;
        return false;
      }
      lastObserved := Some(now);
      return true;
    }

    method RegisterReleaseApproval(a: Approval, now: int) returns (r: Outcome<Approval>)
      modifies this
      ensures (View(), r) == Register(cfg, old(View()), a, now)
    {
      if !WfApproval(a) {
        return Refused(Invalid);
      }
      var ok := ObserveNow(now);
      if !ok {
        return Refused(ClockRollback);
      }
      if a.id in seen || a.principal != cfg.principal || a.decidedAt > now {
        return Refused(Invalid);
      }
      if a.expiresAt.Some? && now >= a.expiresAt.value {
        return Refused(Expired);
      }
      seen := seen + {a.id};
      approvals := approvals[a.id := a];
      return Done(a);
    }

    method RevokeReleaseApproval(id: Id, now: int) returns (r: Outcome<()>)
      modifies this
      ensures (View(), r) == Revoke(old(View()), id, now)
    {
      var ok := ObserveNow(now);
      if !ok {
        return Refused(ClockRollback);
      }
      seen := seen + {id};
      approvals := approvals - {id};
      return Done(());
    }

    method IssueCapability(q: Request, now: int) returns (r: Outcome<Capability>)
      modifies this
      ensures (View(), r) == Issue(cfg, old(View()), q, now)
    {
      if q.lifetime <= 0 || q.lifetime > MAX_LIFETIME {
        return Refused(Invalid);
      }
      var ok := ObserveNow(now);
      if !ok {
        return Refused(ClockRollback);
      }
      if q.approvalId !in approvals {
        return Refused(Invalid);
      }
      var a := approvals[q.approvalId];
      if a.subject != ReleaseHash(q.base, q.preview, a.report) || a.verifiedPreview != q.preview {
        return Refused(Invalid);
      }
      if a.expiresAt.Some? && now >= a.expiresAt.value {
        return Refused(Expired);
      }
      if q.commands == [] {
        return Refused(Invalid);
      }
      var c := ClaimsFor(cfg, q, a, now);
      var d := AuthDigest(c);
      if !WfClaims(c) || (d in issued && issued[d] != a) {
        return Refused(Invalid);
      }
      issued := issued[d := a];
      return Done(Capability(c, d, Seal(cfg.secret, d)));
    }

    method VerifyCapability(k: Capability, now: int) returns (r: Outcome<Verified>)
      modifies this
      ensures (View(), r) == Verify(cfg, old(View()), k, now)
    {
      if !WfClaims(k.claims) {
        return Refused(Invalid);
      }
      var ok := ObserveNow(now);
      if !ok {
        return Refused(ClockRollback);
      }
      return VerifyAt(cfg, View(), k, now);
    }

    method ConsumeCapability(v: Verified, now: int) returns (r: Outcome<Consumption>)
      modifies this
      ensures (View(), r) == Consume(cfg, old(View()), v, now)
    {
      if v.token != cfg.token {
        return Refused(Invalid);
      }
      var ok := ObserveNow(now);
      if !ok {
        return Refused(ClockRollback);
      }
      match VerifyAt(cfg, View(), v.capability, now) {
        case Refused(f) =>
          return Refused(f);
        case Done(current) =>
          if current.previous.Some? {
            return Refused(AlreadyConsumed);
          }
          consumed := consumed[v.capability.claims.nonce := v.capability.digest];
          return Done(Consumption(v.capability.claims, current.approval, now));
      }
    }
  
    /** One call by any holder of the authority. */
    method Serve(call: Call, now: int)
      modifies this
      ensures View() == After(cfg, old(View()), call, now)
    {
      match call
      case DoRegister(a) => var _ := RegisterReleaseApproval(a, now);
      case DoRevoke(id) => var _ := RevokeReleaseApproval(id, now);
      case DoIssue(q) => var _ := IssueCapability(q, now);
      case DoVerify(k) => var _ := VerifyCapability(k, now);
      case DoConsume(v) => var _ := ConsumeCapability(v, now);
    }

    method ServeAll(calls: seq<(Call, int)>)
      modifies this
      ensures View() == AfterAll(cfg, old(View()), calls)
    {
      var i := 0;
      assert calls[0..] == calls;
      while i < |calls|
        invariant 0 <= i <= |calls|
        invariant AfterAll(cfg, old(View()), calls) == AfterAll(cfg, View(), calls[i..])
      {
        assert calls[i..][0] == calls[i] && calls[i..][1..] == calls[i + 1..];
        Serve(calls[i].0, calls[i].1);
        i := i + 1;
      }
    }
  }
}
