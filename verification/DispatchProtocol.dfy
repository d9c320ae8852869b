/**
Any number of dispatch workers, interleaved step by step, sharing one clock, one slot log and one row
lock per tenant.  A worker reads the clock before it takes the lock, reads it again for the recheck,
and the inserted row is stamped by a third reading; every other worker, the clock and the operators may
move between any two of these steps.
 */
module DispatchProtocol {
  import opened Options
  import opened Throttling

  type WorkerId = nat

  /** Fixed surroundings: the tenants' calendars, the settings floor, and which tenant owns a domain. */
  datatype Site = Site(calendar: TenantId -> Calendar, floor: int, owner: DomainId -> TenantId)
  {
    ghost predicate Valid() {
      forall t :: calendar(t).Valid()
    }
  }

  /** Where a worker is inside `dispatch_message_task`.  `limit` is computed from the tenant row the worker
      loaded at the start, which may be stale; policies are read afresh by each of the two checks. */
  datatype Worker =
    | Idle
    | Loaded(req: Request, limit: int)
    | Waiting(req: Request, limit: int, now1: Time)
    | Holding(req: Request, limit: int, now1: Time)
    | Admitted(req: Request, limit: int, now1: Time, seen: Option<Policy>)
    | Rechecking(req: Request, limit: int, now1: Time, seen: Option<Policy>, now2: Time)
    | Passed(req: Request, limit: int, policy: Option<Policy>, now2: Time)
    | Inserted(req: Request, limit: int, policy: Option<Policy>, now2: Time, row: Slot)
  {
    predicate HasLock() {
      Holding? || Admitted? || Rechecking? || Passed? || Inserted?
    }
  }

  datatype State = State(clock: Time, log: seq<Slot>, locks: map<TenantId, WorkerId>, workers: map<WorkerId, Worker>,
                         rates: map<TenantId, int>, policies: map<DomainId, Policy>)
  {
    function At(w: WorkerId): Worker {
      if w in workers then workers[w] else Idle
    }

    function RateOf(t: TenantId): int {
      if t in rates then rates[t] else 0
    }

    function PolicyOf(req: Request): Option<Policy> {
      if req.domain.Some? && req.domain.value in policies then Some(policies[req.domain.value]) else None
    }

    function Moved(w: WorkerId, next: Worker): State {
      this.(workers := workers[w := next])
    }

    /** The transaction ends: the row lock is released and the worker is free. */
    function Ended(w: WorkerId, t: TenantId): State {
      this.(workers := workers[w := Idle], locks := locks - {t})
    }
  }

  datatype Step =
    | Load(w: WorkerId, tenant: TenantId, domain: Option<DomainId>, message: MessageId)
    | ReadClock(w: WorkerId)
    | TakeLock(w: WorkerId)
    | CheckCaps(w: WorkerId)
    | ReadClockAgain(w: WorkerId)
    | Recheck(w: WorkerId)
    | Insert(w: WorkerId)
    | Commit(w: WorkerId)
    | Rollback(w: WorkerId)
    | Tick(elapsed: nat)
    | SetRate(owner: TenantId, raw: int)
    | SetPolicy(target: DomainId, policy: Policy)

  /** The verdict a worker gets when it checks, or rechecks, the caps right now. */
  function Passes(site: Site, s: State, k: Worker): bool {
    match k
    case Holding(req, limit, now1) =>
      Check(site.calendar(req.tenant), s.log, req, limit, s.PolicyOf(req), now1).Allowed?
    case Rechecking(req, limit, _, _, now2) =>
      Check(site.calendar(req.tenant), s.log, req, limit, s.PolicyOf(req), now2).Allowed?
    case _ => false
  }

  /** One step. */
  function Next(site: Site, s: State, step: Step): State {
    Move(site, s, step, (step.CheckCaps? || step.Recheck?) && Passes(site, s, s.At(step.w)))
  }

  /** One step, given the verdict if it is a check; a step that is not enabled changes nothing. */
  function Move(site: Site, s: State, step: Step, passes: bool): State {
    match step
    case Load(w, tenant, domain, message) =>
      var mine := domain.Some? && site.owner(domain.value) == tenant;
      var req := Request(tenant, if mine then domain else None, message);
      if s.At(w) == Idle then s.Moved(w, Loaded(req, EffectivePerMinute(s.RateOf(tenant), site.floor))) else s
    case ReadClock(w) =>
      match s.At(w) {
      case Loaded(req, limit) => s.Moved(w, Waiting(req, limit, s.clock))
      case _ => s
      }
    case TakeLock(w) =>
      match s.At(w) {
      case Waiting(req, limit, now1) =>
        if req.tenant in s.locks then s
        else s.Moved(w, Holding(req, limit, now1)).(locks := s.locks[req.tenant := w])
      case _ => s
      }
    case CheckCaps(w) =>
      match s.At(w) {
      case Holding(req, limit, now1) =>
        if passes then s.Moved(w, Admitted(req, limit, now1, s.PolicyOf(req))) else s.Ended(w, req.tenant)
      case _ => s
      }
    case ReadClockAgain(w) =>
      match s.At(w) {
      case Admitted(req, limit, now1, seen) => s.Moved(w, Rechecking(req, limit, now1, seen, s.clock))
      case _ => s
      }
    case Recheck(w) =>
      match s.At(w) {
      case Rechecking(req, limit, now1, seen, now2) =>
        if passes then s.Moved(w, Passed(req, limit, s.PolicyOf(req), now2)) else s.Ended(w, req.tenant)
      case _ => s
      }
    case Insert(w) =>
      match s.At(w) {
      case Passed(req, limit, policy, now2) =>
        s.Moved(w, Inserted(req, limit, policy, now2, Reservation(req, policy, s.clock)))
      case _ => s
      }
    case Commit(w) =>
      match s.At(w) {
      case Inserted(req, limit, policy, now2, row) => s.Ended(w, req.tenant).(log := s.log + [row])
      case _ => s
      }
    case Rollback(w) =>
      if s.At(w).HasLock() then s.Ended(w, s.At(w).req.tenant) else s.Moved(w, Idle)
    case Tick(elapsed) => s.(clock := s.clock + elapsed)
    case SetRate(tenant, raw) => s.(rates := s.rates[tenant := raw])
    case SetPolicy(domain, policy) => s.(policies := s.policies[domain := policy])
  }

  function Run(site: Site, s: State, steps: seq<Step>): State
    decreases |steps|
  {
    if steps == [] then s else Run(site, Next(site, s, steps[0]), steps[1..])
  }

  predicate Initial(s: State) {
    s.log == [] && s.locks == map[] && forall w :: w in s.workers ==> s.workers[w].Idle?
  }

  // ---------------------------------------------------------------------------------------------
  // Limits may change during a run; what is promised is the largest value they ever take
  // ---------------------------------------------------------------------------------------------

  /** Upper bounds for one run.  A domain in `metered` keeps an enabled policy all along. */
  datatype Bounds = Bounds(tenant: TenantId -> nat, minute: DomainId -> Option<nat>, daily: DomainId -> Option<nat>,
                           metered: set<DomainId>)

  predicate PolicyBounded(b: Bounds, d: DomainId, p: Policy) {
    && (d in b.metered ==> p.enabled)
    && (p.enabled && b.minute(d).Some? ==> InForce(p.perMinute).Some? && p.perMinute.value <= b.minute(d).value)
    && (p.enabled && b.daily(d).Some? ==> InForce(p.daily).Some? && p.daily.value <= b.daily(d).value)
  }

  predicate StepBounded(site: Site, b: Bounds, step: Step) {
    && (step.SetRate? ==> EffectivePerMinute(step.raw, site.floor) <= b.tenant(step.owner))
    && (step.SetPolicy? ==> PolicyBounded(b, step.target, step.policy))
  }

  ghost predicate SettingsBounded(site: Site, b: Bounds, s: State) {
    && (forall t :: EffectivePerMinute(s.RateOf(t), site.floor) <= b.tenant(t))
    && (forall d :: d in s.policies ==> PolicyBounded(b, d, s.policies[d]))
    && (forall d :: d in b.metered ==> d in s.policies)
  }

  predicate StepsBounded(site: Site, b: Bounds, steps: seq<Step>) {
    forall i :: 0 <= i < |steps| ==> StepBounded(site, b, steps[i])
  }

  // ---------------------------------------------------------------------------------------------
  // The invariant
  // ---------------------------------------------------------------------------------------------

  /** The row lock excludes: it is held exactly by the one worker of the tenant that is past it. */
  ghost predicate Exclusive(s: State) {
    && (forall w :: w in s.workers && s.workers[w].HasLock() ==>
          s.workers[w].req.tenant in s.locks && s.locks[s.workers[w].req.tenant] == w)
    && (forall t :: t in s.locks ==>
          var w := s.locks[t]; w in s.workers && s.workers[w].HasLock() && s.workers[w].req.tenant == t)
  }

  ghost predicate RowFits(site: Site, b: Bounds, row: Slot) {
    && (row.domain.Some? ==> site.owner(row.domain.value) == row.tenant && row.sender == row.domain)
    && (row.sender.Some? ==> site.owner(row.sender.value) == row.tenant)
    && (row.sender.Some? && row.sender.value in b.metered ==> row.domain == row.sender)
  }

  ghost predicate LogFits(site: Site, b: Bounds, s: State) {
    && (forall i :: 0 <= i < |s.log| ==> s.log[i].at <= s.clock)
    && (forall i :: 0 <= i < |s.log| ==> RowFits(site, b, s.log[i]))
  }

  ghost predicate RequestFits(site: Site, b: Bounds, req: Request, limit: int) {
    && (req.domain.Some? ==> site.owner(req.domain.value) == req.tenant)
    && limit <= b.tenant(req.tenant)
  }

  /** A policy a worker acted on was within the bounds when it read it. */
  ghost predicate ReadBounded(b: Bounds, req: Request, policy: Option<Policy>) {
    req.domain.Some? ==>
      && (policy.Some? ==> PolicyBounded(b, req.domain.value, policy.value))
      && (req.domain.value in b.metered ==> policy.Some?)
  }

  /** What a worker knows at its program point, in terms of the log as it is now. */
  ghost predicate WorkerFits(site: Site, b: Bounds, s: State, k: Worker) {
    && (!k.Idle? ==> RequestFits(site, b, k.req, k.limit))
    && (k.Waiting? || k.Holding? || k.Admitted? || k.Rechecking? ==> k.now1 <= s.clock)
    && (k.Admitted? || k.Rechecking? ==>
          Check(site.calendar(k.req.tenant), s.log, k.req, k.limit, k.seen, k.now1).Allowed?)
    && (k.Rechecking? ==> k.now1 <= k.now2)
    && (k.Rechecking? || k.Passed? || k.Inserted? ==>
          k.now2 <= s.clock && Settled(s.log, OfTenant(k.req.tenant), k.now2))
    && (k.Passed? || k.Inserted? ==>
          && ReadBounded(b, k.req, k.policy)
          && Check(site.calendar(k.req.tenant), s.log, k.req, k.limit, k.policy, k.now2).Allowed?)
    && (k.Inserted? ==> k.now2 <= k.row.at <= s.clock && k.row == Reservation(k.req, k.policy, k.row.at))
  }

  ghost predicate WorkersFit(site: Site, b: Bounds, s: State) {
    forall w :: w in s.workers ==> WorkerFits(site, b, s, s.workers[w])
  }

  /** The promise itself, for every tenant and every domain. */
  ghost predicate Capped(site: Site, b: Bounds, log: seq<Slot>) {
    && (forall t :: WindowCapped(log, OfTenant(t), b.tenant(t)))
    && (forall d :: b.minute(d).Some? ==> WindowCapped(log, OfDomain(d), b.minute(d).value))
    && (forall d :: b.daily(d).Some? ==> DayCapped(site.calendar(site.owner(d)), log, OfDomain(d), b.daily(d).value))
  }

  ghost predicate Inv(site: Site, b: Bounds, s: State) {
    SettingsBounded(site, b, s) && Exclusive(s) && LogFits(site, b, s) && WorkersFit(site, b, s) && Capped(site, b, s.log)
  }

  // ---------------------------------------------------------------------------------------------
  // Preservation
  // ---------------------------------------------------------------------------------------------

  /** Rows of other tenants are invisible to a check: it reads only its tenant's and its domain's rows. */
  lemma CheckIgnoresOthers(cal: Calendar, log: seq<Slot>, row: Slot, req: Request, limit: int, policy: Option<Policy>, now: Time)
    requires row.tenant != req.tenant
    requires req.domain.Some? ==> row.domain != req.domain
    requires Check(cal, log, req, limit, policy, now).Allowed?
    ensures Check(cal, log + [row], req, limit, policy, now).Allowed?
  {
  }

  lemma InsertKeepsTenantWindow(site: Site, b: Bounds, s: State, k: Worker, t: TenantId)
    requires WindowCapped(s.log, OfTenant(t), b.tenant(t)) && WorkerFits(site, b, s, k) && k.Inserted?
    ensures WindowCapped(s.log + [k.row], OfTenant(t), b.tenant(t))
  {
    if t == k.req.tenant {
      AllowedHasRoom(site.calendar(t), s.log, k.req, k.limit, k.policy, k.now2);
      AdmitKeepsWindow(s.log, OfTenant(t), b.tenant(t), k.now2, k.row);
    } else {
      OtherScopeKept(s.log, k.row, OfTenant(t), b.tenant(t));
    }
  }

  lemma InsertKeepsDomainWindow(site: Site, b: Bounds, s: State, k: Worker, d: DomainId, limit: nat)
    requires b.minute(d) == Some(limit) && WindowCapped(s.log, OfDomain(d), limit)
    requires WorkerFits(site, b, s, k) && k.Inserted?
    ensures WindowCapped(s.log + [k.row], OfDomain(d), limit)
  {
    if k.row.domain == Some(d) {
      AllowedHasRoom(site.calendar(k.req.tenant), s.log, k.req, k.limit, k.policy, k.now2);
      AdmitKeepsWindow(s.log, OfDomain(d), limit, k.now2, k.row);
    } else {
      OtherScopeKept(s.log, k.row, OfDomain(d), limit);
    }
  }

  lemma InsertKeepsDomainDay(site: Site, b: Bounds, s: State, k: Worker, d: DomainId, limit: nat)
    requires site.Valid() && LogFits(site, b, s)
    requires b.daily(d) == Some(limit) && DayCapped(site.calendar(site.owner(d)), s.log, OfDomain(d), limit)
    requires WorkerFits(site, b, s, k) && k.Inserted?
    ensures DayCapped(site.calendar(site.owner(d)), s.log + [k.row], OfDomain(d), limit)
  {
    var cal := site.calendar(site.owner(d));
    if k.row.domain == Some(d) {
      DomainSettled(site, b, s, d, k.req.tenant, k.now2);
      AllowedHasRoom(cal, s.log, k.req, k.limit, k.policy, k.now2);
      AdmitKeepsDay(cal, s.log, OfDomain(d), limit, k.now2, k.row);
    } else {
      OtherDaysKept(cal, s.log, k.row, OfDomain(d), limit);
    }
  }

  lemma OtherDaysKept(cal: Calendar, log: seq<Slot>, row: Slot, scope: Scope, limit: int)
    requires !scope.Covers(row) && DayCapped(cal, log, scope, limit)
    ensures DayCapped(cal, log + [row], scope, limit)
  {
    forall day
      ensures Count(log + [row], scope, cal.Day(day)) <= limit
    {
      CountSnoc(log, row, scope, cal.Day(day));
    }
  }

  /** A domain's rows are rows of its owner. */
  lemma DomainSettled(site: Site, b: Bounds, s: State, d: DomainId, t: TenantId, now: Time)
    requires LogFits(site, b, s) && site.owner(d) == t && Settled(s.log, OfTenant(t), now)
    ensures Settled(s.log, OfDomain(d), now)
  {
    forall i | 0 <= i < |s.log| && OfDomain(d).Covers(s.log[i])
      ensures s.log[i].at <= now
    {
      assert RowFits(site, b, s.log[i]);
      assert OfTenant(t).Covers(s.log[i]);
    }
  }

  /** Committing a row that passed the recheck keeps every cap, for every tenant and domain. */
  lemma CommitKeepsCaps(site: Site, b: Bounds, s: State, w: WorkerId)
    requires site.Valid() && Inv(site, b, s)
    requires s.At(w).Inserted?
    ensures Capped(site, b, s.log + [s.At(w).row])
  {
    var k, log := s.At(w), s.log + [s.At(w).row];
    assert WorkerFits(site, b, s, s.workers[w]);
    forall t
      ensures WindowCapped(log, OfTenant(t), b.tenant(t))
    {
      InsertKeepsTenantWindow(site, b, s, k, t);
    }
    forall d: DomainId | b.minute(d).Some?
      ensures WindowCapped(log, OfDomain(d), b.minute(d).value)
    {
      InsertKeepsDomainWindow(site, b, s, k, d, b.minute(d).value);
    }
    forall d: DomainId | b.daily(d).Some?
      ensures DayCapped(site.calendar(site.owner(d)), log, OfDomain(d), b.daily(d).value)
    {
      InsertKeepsDomainDay(site, b, s, k, d, b.daily(d).value);
    }
  }

  lemma OtherScopeKept(log: seq<Slot>, row: Slot, scope: Scope, limit: int)
    requires !scope.Covers(row) && WindowCapped(log, scope, limit)
    ensures WindowCapped(log + [row], scope, limit)
  {
  }

  function Actor(step: Step): Option<WorkerId> {
    if step.Tick? || step.SetRate? || step.SetPolicy? then None else Some(step.w)
  }

  lemma EndingKeepsExclusion(s: State, w: WorkerId)
    requires Exclusive(s) && s.At(w).HasLock()
    ensures Exclusive(s.Ended(w, s.At(w).req.tenant))
  {
  }

  lemma MovingKeepsExclusion(s: State, w: WorkerId, next: Worker)
    requires Exclusive(s)
    requires s.At(w).HasLock() == next.HasLock() && (next.HasLock() ==> s.At(w).req.tenant == next.req.tenant)
    ensures Exclusive(s.Moved(w, next))
  {
  }

  lemma ExclusiveKept(site: Site, s: State, step: Step, passes: bool)
    requires Exclusive(s)
    ensures Exclusive(Move(site, s, step, passes))
  {
    if Actor(step).Some? {
      var w := Actor(step).value;
      var next := Move(site, s, step, passes).At(w);
      if s.At(w).HasLock() && !next.HasLock() {
        EndingKeepsExclusion(s, w);
      } else if s.At(w).HasLock() == next.HasLock() {
        MovingKeepsExclusion(s, w, next);
      }
    }
  }

  lemma SettingsKept(site: Site, b: Bounds, s: State, step: Step, passes: bool)
    requires SettingsBounded(site, b, s) && StepBounded(site, b, step)
    ensures SettingsBounded(site, b, Move(site, s, step, passes))
  {
  }

  /** Facts about a worker survive the passing of time and steps that leave the log alone. */
  lemma WorkerFitsLater(site: Site, b: Bounds, s: State, s': State, k: Worker)
    requires WorkerFits(site, b, s, k)
    requires s'.log == s.log && s'.clock >= s.clock
    ensures WorkerFits(site, b, s', k)
  {
  }

  /** Facts about another tenant's lock holder survive a commit. */
  lemma WorkerFitsBesideCommit(site: Site, b: Bounds, s: State, s': State, row: Slot, k: Worker)
    requires WorkerFits(site, b, s, k) && RowFits(site, b, row)
    requires s'.log == s.log + [row] && s'.clock == s.clock
    requires k.HasLock() ==> k.req.tenant != row.tenant
    ensures WorkerFits(site, b, s', k)
  {
    if k.Admitted? || k.Rechecking? {
      CheckIgnoresOthers(site.calendar(k.req.tenant), s.log, row, k.req, k.limit, k.seen, k.now1);
    } else if k.Passed? || k.Inserted? {
      CheckIgnoresOthers(site.calendar(k.req.tenant), s.log, row, k.req, k.limit, k.policy, k.now2);
    }
  }

  lemma CommitKeepsLog(site: Site, b: Bounds, s: State, w: WorkerId)
    requires Inv(site, b, s) && s.At(w).Inserted?
    ensures RowFits(site, b, s.At(w).row) && LogFits(site, b, Next(site, s, Commit(w)))
  {
    assert WorkerFits(site, b, s, s.workers[w]);
  }

  lemma CommitKeepsWorker(site: Site, b: Bounds, s: State, w: WorkerId, v: WorkerId)
    requires Inv(site, b, s) && s.At(w).Inserted? && v in Next(site, s, Commit(w)).workers
    ensures WorkerFits(site, b, Next(site, s, Commit(w)), Next(site, s, Commit(w)).workers[v])
  {
    if v != w {
      var row := s.At(w).row;
      assert WorkerFits(site, b, s, s.workers[w]);
      CommitKeepsLog(site, b, s, w);
      assert s.workers[v].HasLock() ==> s.workers[v].req.tenant != row.tenant;
      WorkerFitsBesideCommit(site, b, s, Next(site, s, Commit(w)), row, s.workers[v]);
    }
  }

  lemma CommitKeepsInv(site: Site, b: Bounds, s: State, w: WorkerId)
    requires site.Valid() && Inv(site, b, s)
    ensures Inv(site, b, Next(site, s, Commit(w)))
  {
    if s.At(w).Inserted? {
      var s' := Next(site, s, Commit(w));
      EndingKeepsExclusion(s, w);
      CommitKeepsCaps(site, b, s, w);
      CommitKeepsLog(site, b, s, w);
      forall v | v in s'.workers
        ensures WorkerFits(site, b, s', s'.workers[v])
      {
        CommitKeepsWorker(site, b, s, w, v);
      }
    }
  }

  /** Every step but a commit leaves the log alone and moves at most its own worker. */
  lemma LogStays(site: Site, s: State, step: Step, passes: bool)
    requires !step.Commit?
    ensures Move(site, s, step, passes).log == s.log && Move(site, s, step, passes).clock >= s.clock
  {
  }

  lemma OtherStays(site: Site, s: State, step: Step, passes: bool, v: WorkerId)
    requires v in Move(site, s, step, passes).workers && Actor(step) != Some(v)
    ensures v in s.workers && Move(site, s, step, passes).workers[v] == s.workers[v]
  {
  }

  /** A worker that checks, or rechecks, learns the verdict. */
  lemma CheckerFits(site: Site, b: Bounds, s: State, step: Step)
    requires site.Valid() && Inv(site, b, s)
    requires step.CheckCaps? || step.Recheck?
    ensures WorkerFits(site, b, Next(site, s, step), Next(site, s, step).At(step.w))
  {
    if step.w in s.workers {
      assert WorkerFits(site, b, s, s.workers[step.w]);
    }
  }

  lemma LoaderFits(site: Site, b: Bounds, s: State, step: Step)
    requires site.Valid() && Inv(site, b, s) && step.Load?
    ensures WorkerFits(site, b, Next(site, s, step), Next(site, s, step).At(step.w))
  {
    if step.w in s.workers {
      assert WorkerFits(site, b, s, s.workers[step.w]);
    }
  }

  /** The moving worker learns what the step just read. */
  lemma ActorFits(site: Site, b: Bounds, s: State, step: Step, w: WorkerId)
    requires site.Valid() && Inv(site, b, s)
    requires !step.Commit? && Actor(step) == Some(w)
    ensures WorkerFits(site, b, Next(site, s, step), Next(site, s, step).At(w))
  {
    if step.CheckCaps? || step.Recheck? {
      CheckerFits(site, b, s, step);
    } else if step.Load? {
      LoaderFits(site, b, s, step);
    } else if w in s.workers {
      assert WorkerFits(site, b, s, s.workers[w]);
      assert !s.workers[w].Idle? ==> RequestFits(site, b, s.workers[w].req, s.workers[w].limit);
    }
  }

  lemma LocalStepKeepsInv(site: Site, b: Bounds, s: State, step: Step)
    requires site.Valid() && Inv(site, b, s) && StepBounded(site, b, step)
    requires !step.Commit?
    ensures Inv(site, b, Next(site, s, step))
  {
    var passes := (step.CheckCaps? || step.Recheck?) && Passes(site, s, s.At(step.w));
    ExclusiveKept(site, s, step, passes);
    SettingsKept(site, b, s, step, passes);
    LogStays(site, s, step, passes);
    forall v | v in Next(site, s, step).workers && Actor(step) != Some(v)
      ensures v in s.workers && Next(site, s, step).workers[v] == s.workers[v]
    {
      OtherStays(site, s, step, passes, v);
    }
    if Actor(step).Some? {
      ActorFits(site, b, s, step, Actor(step).value);
    }
    AssembleInv(site, b, s, Next(site, s, step), Actor(step));
  }

  lemma AssembleInv(site: Site, b: Bounds, s: State, s': State, actor: Option<WorkerId>)
    requires Inv(site, b, s)
    requires Exclusive(s') && SettingsBounded(site, b, s')
    requires s'.log == s.log && s'.clock >= s.clock
    requires forall v :: v in s'.workers && actor != Some(v) ==> v in s.workers && s'.workers[v] == s.workers[v]
    requires actor.Some? ==> WorkerFits(site, b, s', s'.At(actor.value))
    ensures Inv(site, b, s')
  {
    forall v | v in s'.workers
      ensures WorkerFits(site, b, s', s'.workers[v])
    {
      if actor != Some(v) {
        WorkerFitsLater(site, b, s, s', s.workers[v]);
      }
    }
  }

  lemma {:induction false} RunKeepsInv(site: Site, b: Bounds, s: State, steps: seq<Step>)
    requires site.Valid() && Inv(site, b, s) && StepsBounded(site, b, steps)
    ensures Inv(site, b, Run(site, s, steps))
    decreases |steps|
  {
    if steps != [] {
      if steps[0].Commit? {
        CommitKeepsInv(site, b, s, steps[0].w);
      } else {
        LocalStepKeepsInv(site, b, s, steps[0]);
      }
      RunKeepsInv(site, b, Next(site, s, steps[0]), steps[1..]);
    }
  }

  // ---------------------------------------------------------------------------------------------
  // Main results
  // ---------------------------------------------------------------------------------------------

  /** In every interleaving, no 60-second window of a tenant or of a domain and no local day of a domain
      ever holds more rows than the largest value its limit takes.  For a domain whose policy stays
      enabled this counts every message sent from the domain, not just the rows tagged with it. */
  lemma CapsHoldInEveryRun(site: Site, b: Bounds, s: State, steps: seq<Step>)
    requires site.Valid() && Initial(s) && SettingsBounded(site, b, s) && StepsBounded(site, b, steps)
    ensures var log := Run(site, s, steps).log;
            && Capped(site, b, log)
            && forall d: DomainId :: d in b.metered ==>
                 && (b.minute(d).Some? ==> WindowCapped(log, OfSender(d), b.minute(d).value))
                 && (b.daily(d).Some? ==> DayCapped(site.calendar(site.owner(d)), log, OfSender(d), b.daily(d).value))
  {
    RunKeepsInv(site, b, s, steps);
    var s' := Run(site, s, steps);
    forall d: DomainId, span | d in b.metered
      ensures Count(s'.log, OfSender(d), span) <= Count(s'.log, OfDomain(d), span)
    {
      assert forall i :: 0 <= i < |s'.log| ==> RowFits(site, b, s'.log[i]);
      CountMonotone(s'.log, OfSender(d), span, OfDomain(d), span);
    }
  }

  lemma {:induction false} RatesHaveTop(rates: map<TenantId, int>) returns (top: int)
    ensures forall u :: u in rates ==> rates[u] <= top
    decreases |rates|
  {
    top := 0;
    if rates != map[] {
      var u :| u in rates;
      assert |rates - {u}| < |rates| by {
        assert (rates - {u}).Keys == rates.Keys - {u};
        assert |rates.Keys - {u}| == |rates.Keys| - 1;
        assert |rates| == |rates.Keys| && |rates - {u}| == |(rates - {u}).Keys|;
      }
      var rest := RatesHaveTop(rates - {u});
      top := Max(rest, rates[u]);
      assert forall v :: v in rates && v != u ==> v in rates - {u};
    }
  }

  lemma {:induction false} StepsHaveTop(steps: seq<Step>) returns (top: int)
    ensures forall k :: 0 <= k < |steps| && steps[k].SetRate? ==> steps[k].raw <= top
  {
    top := 0;
    if steps != [] {
      top := StepsHaveTop(steps[..|steps| - 1]);
      if steps[|steps| - 1].SetRate? {
        top := Max(top, steps[|steps| - 1].raw);
      }
    }
  }

  /** The promise in plain numbers: in every interleaving, under any policies, whatever other tenants do, if tenant t's
      rate and the floor that stands in for an unset one never exceed `most`, then no 60 seconds hold more than
      `most` of t's rows. */
  lemma TenantRateHoldsInEveryRun(site: Site, s: State, steps: seq<Step>, t: TenantId, most: nat, w: Time)
    requires site.Valid() && Initial(s)
    requires site.floor <= most && (t in s.rates ==> s.rates[t] <= most)
    requires forall k :: 0 <= k < |steps| && steps[k].SetRate? && steps[k].owner == t ==> steps[k].raw <= most
    ensures Count(Run(site, s, steps).log, OfTenant(t), Between(w, w + 60_000_001)) <= most
  {
    var initialTop := RatesHaveTop(s.rates);
    var laterTop := StepsHaveTop(steps);
    var top: nat := Max(most, Max(initialTop, laterTop));
    var b := Bounds(u => if u == t then most else top, _ => None, _ => None, {});
    assert SettingsBounded(site, b, s);
    assert StepsBounded(site, b, steps);
    CapsHoldInEveryRun(site, b, s, steps);
    assert Count(Run(site, s, steps).log, OfTenant(t), Window(w)) <= b.tenant(t);
  }

  /** An enabled policy whose caps, as far as bounds are given, lie between 1 and the bounds. */
  predicate CapsWithin(p: Policy, minute: Option<nat>, daily: Option<nat>) {
    && p.enabled
    && (minute.Some? ==> p.perMinute.Some? && 0 < p.perMinute.value <= minute.value)
    && (daily.Some? ==> p.daily.Some? && 0 < p.daily.value <= daily.value)
  }

  /** And for a domain whose policy stays enabled and within bounds: no 60 seconds, and no local day of its owner, hold
      more rows of messages sent from it. */
  lemma DomainCapsHoldInEveryRun(site: Site, s: State, steps: seq<Step>, d: DomainId, minute: Option<nat>, daily: Option<nat>,
                                 w: Time, date: int)
    requires site.Valid() && Initial(s)
    requires d in s.policies && CapsWithin(s.policies[d], minute, daily)
    requires forall k :: 0 <= k < |steps| && steps[k].SetPolicy? && steps[k].target == d ==> CapsWithin(steps[k].policy, minute, daily)
    ensures var log, cal := Run(site, s, steps).log, site.calendar(site.owner(d));
            && (minute.Some? ==> Count(log, OfSender(d), Between(w, w + 60_000_001)) <= minute.value)
            && (daily.Some? ==> Count(log, OfSender(d), Between(cal.dayStart(date), cal.dayStart(date + 1))) <= daily.value)
  {
    var initialTop := RatesHaveTop(s.rates);
    var laterTop := StepsHaveTop(steps);
    var top: nat := Max(Max(0, site.floor), Max(initialTop, laterTop));
    var b := Bounds(_ => top, e => if e == d then minute else None, e => if e == d then daily else None, {d});
    assert SettingsBounded(site, b, s);
    assert StepsBounded(site, b, steps);
    CapsHoldInEveryRun(site, b, s, steps);
    var log, cal := Run(site, s, steps).log, site.calendar(site.owner(d));
    assert minute.Some? ==> Count(log, OfSender(d), Window(w)) <= minute.value;
    assert daily.Some? ==> Count(log, OfSender(d), cal.Day(date)) <= daily.value;
  }

  /** Two workers are never past the same tenant's row lock together. */
  lemma LockExcludesInEveryRun(site: Site, b: Bounds, s: State, steps: seq<Step>, v: WorkerId, w: WorkerId)
    requires site.Valid() && Initial(s) && SettingsBounded(site, b, s) && StepsBounded(site, b, steps)
    requires var s' := Run(site, s, steps);
             s'.At(v).HasLock() && s'.At(w).HasLock() && s'.At(v).req.tenant == s'.At(w).req.tenant
    ensures v == w
  {
    RunKeepsInv(site, b, s, steps);
  }

  /** After `can_send_now` said yes, and if the policy has not been edited since, `record_send_attempt` refuses
      exactly when local midnight passed between the two clock readings and the new day is full already. */
  lemma RecheckRefusesExactlyOnFullNextDay(site: Site, b: Bounds, s: State, steps: seq<Step>, w: WorkerId)
    requires site.Valid() && Initial(s) && SettingsBounded(site, b, s) && StepsBounded(site, b, steps)
    requires var s' := Run(site, s, steps); s'.At(w).Rechecking? && s'.PolicyOf(s'.At(w).req) == s'.At(w).seen
    ensures var s' := Run(site, s, steps);
            var k := s'.At(w);
            var cal := site.calendar(k.req.tenant);
            var verdict := Check(cal, s'.log, k.req, k.limit, k.seen, k.now2);
            && (verdict.Refused? <==> NextDayIsFull(cal, s'.log, k.req, k.seen, k.now1, k.now2))
            && (verdict.Refused? ==> verdict.reason == DomainDailyLimit)
  {
    RunKeepsInv(site, b, s, steps);
    var s' := Run(site, s, steps);
    var k := s'.At(w);
    assert WorkerFits(site, b, s', s'.workers[w]);
    LaterCheckRefusesExactlyOnFullNextDay(site.calendar(k.req.tenant), s'.log, k.req, k.limit, k.seen, k.now1, k.now2);
  }

  // A run in which worker 1 reads the clock on one day and waits for the lock while worker 2 fills the
  // next day's cap of one.
  ghost function DemoSite(): Site {
    Site(_ => Calendar(d => 100 * d, t => t / 100), 30, _ => 0)
  }

  ghost const DEMO_POLICY := Policy(true, None, Some(1))
  ghost const DEMO_ROW := Slot(0, Some(0), Some(0), 11, 100)
  ghost const LATE := Request(0, Some(0), 10)
  ghost const EARLY := Request(0, Some(0), 11)

  ghost function DemoState(clock: Time, log: seq<Slot>, locks: map<TenantId, WorkerId>, w1: Worker, w2: Worker): State {
    State(clock, log, locks, map[1 := w1, 2 := w2], map[], map[0 := DEMO_POLICY])
  }

  ghost const DEMO_START := DemoState(99, [], map[], Idle, Idle)

  lemma DemoFirstReading() returns (steps: seq<Step>)
    ensures Run(DemoSite(), DEMO_START, steps) == DemoState(100, [], map[], Waiting(LATE, 30, 99), Idle)
  {
    steps := Then(DEMO_START, [], Load(1, 0, Some(0), 10), DemoState(99, [], map[], Loaded(LATE, 30), Idle));
    steps := Then(DEMO_START, steps, ReadClock(1), DemoState(99, [], map[], Waiting(LATE, 30, 99), Idle));
    steps := Then(DEMO_START, steps, Tick(1), DemoState(100, [], map[], Waiting(LATE, 30, 99), Idle));
  }

  lemma DemoArrival(first: seq<Step>) returns (steps: seq<Step>)
    requires Run(DemoSite(), DEMO_START, first) == DemoState(100, [], map[], Waiting(LATE, 30, 99), Idle)
    ensures Run(DemoSite(), DEMO_START, steps)
         == DemoState(100, [], map[0 := 2], Waiting(LATE, 30, 99), Holding(EARLY, 30, 100))
  {
    steps := Then(DEMO_START, first, Load(2, 0, Some(0), 11),
                  DemoState(100, [], map[], Waiting(LATE, 30, 99), Loaded(EARLY, 30)));
    steps := Then(DEMO_START, steps, ReadClock(2),
                  DemoState(100, [], map[], Waiting(LATE, 30, 99), Waiting(EARLY, 30, 100)));
    steps := Then(DEMO_START, steps, TakeLock(2),
                  DemoState(100, [], map[0 := 2], Waiting(LATE, 30, 99), Holding(EARLY, 30, 100)));
  }

  lemma DemoAdmit(first: seq<Step>) returns (steps: seq<Step>)
    requires Run(DemoSite(), DEMO_START, first)
          == DemoState(100, [], map[0 := 2], Waiting(LATE, 30, 99), Holding(EARLY, 30, 100))
    ensures Run(DemoSite(), DEMO_START, steps)
         == DemoState(100, [], map[0 := 2], Waiting(LATE, 30, 99), Rechecking(EARLY, 30, 100, Some(DEMO_POLICY), 100))
  {
    steps := Then(DEMO_START, first, CheckCaps(2),
                  DemoState(100, [], map[0 := 2], Waiting(LATE, 30, 99), Admitted(EARLY, 30, 100, Some(DEMO_POLICY))));
    steps := Then(DEMO_START, steps, ReadClockAgain(2),
                  DemoState(100, [], map[0 := 2], Waiting(LATE, 30, 99), Rechecking(EARLY, 30, 100, Some(DEMO_POLICY), 100)));
  }

  lemma DemoPass(first: seq<Step>) returns (steps: seq<Step>)
    requires Run(DemoSite(), DEMO_START, first)
          == DemoState(100, [], map[0 := 2], Waiting(LATE, 30, 99), Rechecking(EARLY, 30, 100, Some(DEMO_POLICY), 100))
    ensures Run(DemoSite(), DEMO_START, steps)
         == DemoState(100, [], map[0 := 2], Waiting(LATE, 30, 99), Passed(EARLY, 30, Some(DEMO_POLICY), 100))
  {
    steps := Then(DEMO_START, first, Recheck(2),
                  DemoState(100, [], map[0 := 2], Waiting(LATE, 30, 99), Passed(EARLY, 30, Some(DEMO_POLICY), 100)));
  }

  lemma DemoFill(first: seq<Step>) returns (steps: seq<Step>)
    requires Run(DemoSite(), DEMO_START, first)
          == DemoState(100, [], map[0 := 2], Waiting(LATE, 30, 99), Passed(EARLY, 30, Some(DEMO_POLICY), 100))
    ensures Run(DemoSite(), DEMO_START, steps)
         == DemoState(100, [], map[0 := 2], Waiting(LATE, 30, 99), Inserted(EARLY, 30, Some(DEMO_POLICY), 100, DEMO_ROW))
  {
    steps := Then(DEMO_START, first, Insert(2),
                  DemoState(100, [], map[0 := 2], Waiting(LATE, 30, 99), Inserted(EARLY, 30, Some(DEMO_POLICY), 100, DEMO_ROW)));
  }

  lemma DemoCommit(first: seq<Step>) returns (steps: seq<Step>)
    requires Run(DemoSite(), DEMO_START, first)
          == DemoState(100, [], map[0 := 2], Waiting(LATE, 30, 99), Inserted(EARLY, 30, Some(DEMO_POLICY), 100, DEMO_ROW))
    ensures Run(DemoSite(), DEMO_START, steps) == DemoState(100, [DEMO_ROW], map[], Waiting(LATE, 30, 99), Idle)
  {
    steps := Then(DEMO_START, first, Commit(2), DemoState(100, [DEMO_ROW], map[], Waiting(LATE, 30, 99), Idle));
  }

  lemma CountOne(row: Slot, scope: Scope, span: Span)
    ensures Count([row], scope, span) == if scope.Covers(row) && span.Has(row.at) then 1 else 0
  {
    assert [] + [row] == [row];
    CountSnoc([], row, scope, span);
  }

  /** Yesterday's reading passes, today's recheck does not. */
  lemma DemoVerdicts()
    ensures Check(DemoSite().calendar(0), [DEMO_ROW], LATE, 30, Some(DEMO_POLICY), 99).Allowed?
    ensures Check(DemoSite().calendar(0), [DEMO_ROW], LATE, 30, Some(DEMO_POLICY), 100).Refused?
  {
    var cal := DemoSite().calendar(0);
    assert cal.LocalDay(99) == Between(0, 100) && cal.LocalDay(100) == Between(100, 200);
    CountOne(DEMO_ROW, OfTenant(0), Since(99 - ROLLING_WINDOW));
    CountOne(DEMO_ROW, OfTenant(0), Since(100 - ROLLING_WINDOW));
    CountOne(DEMO_ROW, OfDomain(0), Between(0, 100));
    CountOne(DEMO_ROW, OfDomain(0), Between(100, 200));
  }

  lemma DemoLate(first: seq<Step>) returns (steps: seq<Step>)
    requires Run(DemoSite(), DEMO_START, first) == DemoState(100, [DEMO_ROW], map[], Waiting(LATE, 30, 99), Idle)
    ensures Run(DemoSite(), DEMO_START, steps)
         == DemoState(100, [DEMO_ROW], map[0 := 1], Admitted(LATE, 30, 99, Some(DEMO_POLICY)), Idle)
  {
    DemoVerdicts();
    steps := Then(DEMO_START, first, TakeLock(1), DemoState(100, [DEMO_ROW], map[0 := 1], Holding(LATE, 30, 99), Idle));
    steps := Then(DEMO_START, steps, CheckCaps(1),
                  DemoState(100, [DEMO_ROW], map[0 := 1], Admitted(LATE, 30, 99, Some(DEMO_POLICY)), Idle));
  }

  lemma DemoSecondReading(first: seq<Step>) returns (steps: seq<Step>)
    requires Run(DemoSite(), DEMO_START, first)
          == DemoState(100, [DEMO_ROW], map[0 := 1], Admitted(LATE, 30, 99, Some(DEMO_POLICY)), Idle)
    ensures Run(DemoSite(), DEMO_START, steps)
         == DemoState(100, [DEMO_ROW], map[0 := 1], Rechecking(LATE, 30, 99, Some(DEMO_POLICY), 100), Idle)
  {
    steps := Then(DEMO_START, first, ReadClockAgain(1),
                  DemoState(100, [DEMO_ROW], map[0 := 1], Rechecking(LATE, 30, 99, Some(DEMO_POLICY), 100), Idle));
  }

  /** The refusal across midnight does happen: an initial state and a run that lead to it. */
  lemma MidnightRefusalHappens() returns (s: State, steps: seq<Step>)
    ensures DemoSite().Valid() && Initial(s)
    ensures var s' := Run(DemoSite(), s, steps);
            var k := s'.At(1);
            && k.Rechecking? && s'.PolicyOf(k.req) == k.seen
            && Check(DemoSite().calendar(k.req.tenant), s'.log, k.req, k.limit, k.seen, k.now2).Refused?
  {
    s := DEMO_START;
    steps := DemoFirstReading();
    steps := DemoArrival(steps);
    steps := DemoAdmit(steps);
    steps := DemoPass(steps);
    steps := DemoFill(steps);
    steps := DemoCommit(steps);
    steps := DemoLate(steps);
    steps := DemoSecondReading(steps);
    DemoVerdicts();
  }

  /** Extends a demo run by one step with a known outcome. */
  lemma Then(s: State, steps: seq<Step>, step: Step, target: State) returns (more: seq<Step>)
    requires Next(DemoSite(), Run(DemoSite(), s, steps), step) == target
    ensures Run(DemoSite(), s, more) == target
  {
    more := steps + [step];
    RunSnoc(DemoSite(), s, steps, step);
  }

  lemma {:induction false} RunSnoc(site: Site, s: State, steps: seq<Step>, step: Step)
    ensures Run(site, s, steps + [step]) == Next(site, Run(site, s, steps), step)
    decreases |steps|
  {
    if steps == [] {
      assert [step][1..] == [];
    } else {
      assert (steps + [step])[1..] == steps[1..] + [step];
      RunSnoc(site, Next(site, s, steps[0]), steps[1..], step);
    }
  }
}
