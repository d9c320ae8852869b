/**
The dispatch rate limiter: a log of reserved slots, a rolling per-tenant window, and optional
per-minute and per-day caps for a sending domain.  Times are microseconds since an arbitrary epoch.
 */
module Throttling {
  import opened Options

  type Time = int
  type TenantId = nat
  type DomainId = nat
  type MessageId = nat

  const ROLLING_WINDOW: Time := 60_000_000
  const ONE_SECOND: Time := 1_000_000

  /** One `DispatchRateSlot` row.  `domain` is the column the counters read; `sender` is the domain
      of the message the row points to, which the column repeats only while a policy is enabled. */
  datatype Slot = Slot(tenant: TenantId, domain: Option<DomainId>, sender: Option<DomainId>,
                       message: MessageId, at: Time)

  /** Which rows a counter looks at. */
  datatype Scope = OfTenant(tenant: TenantId) | OfDomain(domain: DomainId) | OfSender(from: DomainId)
  {
    predicate Covers(slot: Slot) {
      match this
      case OfTenant(t) => slot.tenant == t
      case OfDomain(d) => slot.domain == Some(d)
      case OfSender(d) => slot.sender == Some(d)
    }
  }

  /** The time filter of a counter: `created_at >= lo`, optionally with `created_at < hi`. */
  datatype Span = Since(lo: Time) | Between(lo: Time, hi: Time)
  {
    predicate Has(t: Time) {
      lo <= t && (Between? ==> t < hi)
    }
  }

  /** The closed 60-second window that starts at `w`. */
  function Window(w: Time): Span {
    Between(w, w + ROLLING_WINDOW + 1)
  }

  function Count(log: seq<Slot>, scope: Scope, span: Span): nat {
    if log == [] then 0
    else
      var last := log[|log| - 1];
      Count(log[..|log| - 1], scope, span) + if scope.Covers(last) && span.Has(last.at) then 1 else 0
  }

  /** The earliest timestamp a counter would see, as `order_by("created_at").first()`. */
  function Oldest(log: seq<Slot>, scope: Scope, span: Span): (r: Option<Time>)
    ensures r.None? <==> Count(log, scope, span) == 0
    ensures r.Some? ==> span.Has(r.value)
    ensures r.Some? ==> exists i :: 0 <= i < |log| && scope.Covers(log[i]) && log[i].at == r.value
    ensures forall i :: 0 <= i < |log| && scope.Covers(log[i]) && span.Has(log[i].at) ==> r.Some? && r.value <= log[i].at
  {
    if log == [] then None
    else
      var last := log[|log| - 1];
      var rest := Oldest(log[..|log| - 1], scope, span);
      assert forall i :: 0 <= i < |log| - 1 ==> log[i] == log[..|log| - 1][i];
      if scope.Covers(last) && span.Has(last.at) && (rest.None? || last.at < rest.value) then Some(last.at) else rest
  }

  /** `TenantDomainSendingPolicy`; both caps are nullable columns. */
  datatype Policy = Policy(enabled: bool, perMinute: Option<nat>, daily: Option<nat>)

  /** A cap is in force only when it is truthy: both NULL and 0 mean "no cap". */
  function InForce(limit: Option<nat>): Option<nat> {
    if limit.Some? && limit.value > 0 then limit else None
  }

  /** What a message asks for; `domain` is the tenant's domain row its sender address resolves to. */
  datatype Request = Request(tenant: TenantId, domain: Option<DomainId>, message: MessageId)

  /** The tenant's local calendar: where each local day starts, and which local day an instant is in. */
  datatype Calendar = Calendar(dayStart: int -> Time, localDate: Time -> int)
  {
    ghost predicate Valid() {
      && (forall d, e :: d < e ==> dayStart(d) < dayStart(e))
      && (forall t :: dayStart(localDate(t)) <= t < dayStart(localDate(t) + 1))
    }

    /** A local calendar day, midnight inclusive to the next midnight exclusive. */
    function Day(date: int): Span {
      Between(dayStart(date), dayStart(date + 1))
    }

    /** The local day of an instant, as `local_day_bounds` computes it. */
    function LocalDay(now: Time): Span {
      Day(localDate(now))
    }
  }

  function EffectivePerMinute(raw: int, floor: int): int {
    if raw <= 0 then floor else raw
  }

  /** The policy that governs a request, if its domain has one and it is enabled. */
  function Governing(req: Request, policy: Option<Policy>): Option<Policy> {
    if req.domain.Some? && policy.Some? && policy.value.enabled then policy else None
  }

  datatype Refusal = TenantLimit | DomainMinuteLimit | DomainDailyLimit
  datatype Verdict = Allowed | Refused(reason: Refusal, reopensAt: Time)

  function WindowReopensAt(log: seq<Slot>, scope: Scope, limit: int, now: Time): Time {
    if limit <= 0 then now + ROLLING_WINDOW
    else
      var oldest := Oldest(log, scope, Since(now - ROLLING_WINDOW));
      if oldest.Some? then oldest.value + ROLLING_WINDOW else now + ONE_SECOND
  }

  /** The decision of `can_send_now` once the tenant row is locked and `log` is what it can see. */
  function Check(cal: Calendar, log: seq<Slot>, req: Request, limit: int, policy: Option<Policy>, now: Time): Verdict {
    var cut := Since(now - ROLLING_WINDOW);
    if Count(log, OfTenant(req.tenant), cut) >= limit then
      Refused(TenantLimit, WindowReopensAt(log, OfTenant(req.tenant), limit, now))
    else
      var governing := Governing(req, policy);
      if governing.None? then Allowed
      else
        var scope := OfDomain(req.domain.value);
        var minute := InForce(governing.value.perMinute);
        var daily := InForce(governing.value.daily);
        if minute.Some? && Count(log, scope, cut) >= minute.value then
          Refused(DomainMinuteLimit, WindowReopensAt(log, scope, minute.value, now))
        else if daily.Some? && Count(log, scope, cal.LocalDay(now)) >= daily.value then
          Refused(DomainDailyLimit, cal.LocalDay(now).hi)
        else Allowed
  }

  /** The row `record_send_attempt` inserts: the domain column stays NULL without an enabled policy. */
  function Reservation(req: Request, policy: Option<Policy>, at: Time): Slot {
    Slot(req.tenant, if Governing(req, policy).Some? then req.domain else None, req.domain, req.message, at)
  }

  /** `calculate_next_send_time`: the latest of the windows that could be holding the message back. */
  function NextSendTime(cal: Calendar, log: seq<Slot>, req: Request, limit: int, policy: Option<Policy>, now: Time): Time {
    var tenant := WindowReopensAt(log, OfTenant(req.tenant), limit, now);
    var governing := Governing(req, policy);
    if governing.None? then tenant
    else
      var minute := InForce(governing.value.perMinute);
      var withMinute := if minute.None? then tenant
                        else Max(tenant, WindowReopensAt(log, OfDomain(req.domain.value), minute.value, now));
      if InForce(governing.value.daily).None? then withMinute else Max(withMinute, cal.LocalDay(now).hi)
  }

  function Max(a: int, b: int): int {
    if a < b then b else a
  }

  // ---------------------------------------------------------------------------------------------
  // What the caps mean, independently of how they are checked
  // ---------------------------------------------------------------------------------------------

  /** Every closed 60-second window, wherever it starts, holds at most `limit` slots. */
  ghost predicate WindowCapped(log: seq<Slot>, scope: Scope, limit: int) {
    forall w: Time :: Count(log, scope, Window(w)) <= limit
  }

  /** Every local day holds at most `limit` slots. */
  ghost predicate DayCapped(cal: Calendar, log: seq<Slot>, scope: Scope, limit: int) {
    forall day: int :: Count(log, scope, cal.Day(day)) <= limit
  }

  /** Everything that is promised for the requester's tenant and domain. */
  ghost predicate Respects(cal: Calendar, log: seq<Slot>, req: Request, limit: int, policy: Option<Policy>) {
    && WindowCapped(log, OfTenant(req.tenant), limit)
    && (Governing(req, policy).Some? ==>
          var minute, daily := InForce(policy.value.perMinute), InForce(policy.value.daily);
          && (minute.Some? ==> WindowCapped(log, OfDomain(req.domain.value), minute.value))
          && (daily.Some? ==> DayCapped(cal, log, OfDomain(req.domain.value), daily.value)))
  }

  /** No slot in scope lies in the future of `now`. */
  ghost predicate Settled(log: seq<Slot>, scope: Scope, now: Time) {
    forall i :: 0 <= i < |log| && scope.Covers(log[i]) ==> log[i].at <= now
  }

  // ---------------------------------------------------------------------------------------------
  // Counting
  // ---------------------------------------------------------------------------------------------

  lemma CountSnoc(log: seq<Slot>, slot: Slot, scope: Scope, span: Span)
    ensures Count(log + [slot], scope, span)
         == Count(log, scope, span) + if scope.Covers(slot) && span.Has(slot.at) then 1 else 0
  {
  }

  /** Counting is monotone in the set of rows counted. */
  lemma {:induction false} CountMonotone(log: seq<Slot>, a: Scope, s: Span, b: Scope, t: Span)
    requires forall i :: 0 <= i < |log| && a.Covers(log[i]) && s.Has(log[i].at) ==> b.Covers(log[i]) && t.Has(log[i].at)
    ensures Count(log, a, s) <= Count(log, b, t)
  {
    if log != [] {
      CountMonotone(log[..|log| - 1], a, s, b, t);
    }
  }

  lemma {:induction false} CountPrefix(log: seq<Slot>, more: seq<Slot>, scope: Scope, span: Span)
    requires log <= more
    ensures Count(log, scope, span) <= Count(more, scope, span)
    decreases |more|
  {
    if log != more {
      CountPrefix(log, more[..|more| - 1], scope, span);
    }
  }

  /** Dropping a row that is counted makes the count strictly smaller. */
  lemma {:induction false} CountStrict(log: seq<Slot>, scope: Scope, s: Span, t: Span, k: nat)
    requires forall i :: 0 <= i < |log| && scope.Covers(log[i]) && s.Has(log[i].at) ==> t.Has(log[i].at)
    requires k < |log| && scope.Covers(log[k]) && t.Has(log[k].at) && !s.Has(log[k].at)
    ensures Count(log, scope, s) < Count(log, scope, t)
  {
    var init := log[..|log| - 1];
    if k < |log| - 1 {
      CountStrict(init, scope, s, t, k);
    } else {
      CountMonotone(init, scope, s, scope, t);
    }
  }

  // ---------------------------------------------------------------------------------------------
  // One admission keeps the caps
  // ---------------------------------------------------------------------------------------------

  /** A slot stamped at or after the check keeps every window capped, whatever its exact stamp. */
  lemma AdmitKeepsWindow(log: seq<Slot>, scope: Scope, limit: int, checkedAt: Time, slot: Slot)
    requires WindowCapped(log, scope, limit)
    requires Count(log, scope, Since(checkedAt - ROLLING_WINDOW)) < limit
    requires checkedAt <= slot.at
    ensures WindowCapped(log + [slot], scope, limit)
  {
    forall w: Time
      ensures Count(log + [slot], scope, Window(w)) <= limit
    {
      var window := Window(w);
      CountSnoc(log, slot, scope, window);
      if window.Has(slot.at) {
        CountMonotone(log, scope, window, scope, Since(checkedAt - ROLLING_WINDOW));
      }
    }
  }

  /** The same for local days, even when midnight passes between the check and the stamp. */
  lemma {:induction false} AdmitKeepsDay(cal: Calendar, log: seq<Slot>, scope: Scope, limit: int, checkedAt: Time, slot: Slot)
    requires cal.Valid()
    requires DayCapped(cal, log, scope, limit)
    requires Count(log, scope, cal.LocalDay(checkedAt)) < limit
    requires Settled(log, scope, checkedAt)
    requires checkedAt <= slot.at
    ensures DayCapped(cal, log + [slot], scope, limit)
  {
    forall day: int
      ensures Count(log + [slot], scope, cal.Day(day)) <= limit
    {
      var span := cal.Day(day);
      CountSnoc(log, slot, scope, span);
      if span.Has(slot.at) && day != cal.localDate(checkedAt) {
        assert day > cal.localDate(checkedAt);
        assert cal.dayStart(cal.localDate(checkedAt) + 1) <= cal.dayStart(day);
        CountMonotone(log, scope, span, scope, cal.LocalDay(checkedAt));
      }
    }
  }

  /** The check is exact: on a log that has no future slots, `can_send_now` says yes if and only if
      reserving a slot right now would leave every promised window and day within its cap. */
  lemma CheckIsExact(cal: Calendar, log: seq<Slot>, req: Request, limit: int, policy: Option<Policy>, now: Time)
    requires cal.Valid()
    requires Respects(cal, log, req, limit, policy)
    requires Settled(log, OfTenant(req.tenant), now)
    requires req.domain.Some? ==> Settled(log, OfDomain(req.domain.value), now)
    ensures Check(cal, log, req, limit, policy, now).Allowed?
       <==> Respects(cal, log + [Reservation(req, policy, now)], req, limit, policy)
  {
    var slot := Reservation(req, policy, now);
    WindowTestIsExact(log, OfTenant(req.tenant), limit, slot);
    if Governing(req, policy).Some? {
      var scope := OfDomain(req.domain.value);
      var minute, daily := InForce(policy.value.perMinute), InForce(policy.value.daily);
      if minute.Some? {
        WindowTestIsExact(log, scope, minute.value, slot);
      }
      if daily.Some? {
        DayTestIsExact(cal, log, scope, daily.value, slot);
      }
    }
  }

  lemma WindowTestIsExact(log: seq<Slot>, scope: Scope, limit: int, slot: Slot)
    requires scope.Covers(slot)
    requires WindowCapped(log, scope, limit) && Settled(log, scope, slot.at)
    ensures Count(log, scope, Since(slot.at - ROLLING_WINDOW)) < limit <==> WindowCapped(log + [slot], scope, limit)
  {
    if Count(log, scope, Since(slot.at - ROLLING_WINDOW)) < limit {
      AdmitKeepsWindow(log, scope, limit, slot.at, slot);
    } else {
      var w := slot.at - ROLLING_WINDOW;
      var window := Window(w);
      CountMonotone(log, scope, Since(w), scope, window);
      CountSnoc(log, slot, scope, window);
      assert Count(log + [slot], scope, window) > limit;
    }
  }

  lemma DayTestIsExact(cal: Calendar, log: seq<Slot>, scope: Scope, limit: int, slot: Slot)
    requires cal.Valid()
    requires scope.Covers(slot)
    requires DayCapped(cal, log, scope, limit) && Settled(log, scope, slot.at)
    ensures Count(log, scope, cal.LocalDay(slot.at)) < limit <==> DayCapped(cal, log + [slot], scope, limit)
  {
    if Count(log, scope, cal.LocalDay(slot.at)) < limit {
      AdmitKeepsDay(cal, log, scope, limit, slot.at, slot);
    } else {
      FullDayOverruns(cal, log, scope, limit, slot, cal.localDate(slot.at));
    }
  }

  lemma FullDayOverruns(cal: Calendar, log: seq<Slot>, scope: Scope, limit: int, slot: Slot, date: int)
    requires scope.Covers(slot) && cal.Day(date).Has(slot.at) && Count(log, scope, cal.Day(date)) >= limit
    ensures !DayCapped(cal, log + [slot], scope, limit)
  {
    CountSnoc(log, slot, scope, cal.Day(date));
    assert Count(log + [slot], scope, cal.Day(date)) > limit;
  }

  // ---------------------------------------------------------------------------------------------
  // The reopen time a refusal reports
  // ---------------------------------------------------------------------------------------------

  /** A full window stays full up to and including the reported reopen time, whatever is added. */
  lemma WindowStaysShut(log: seq<Slot>, more: seq<Slot>, scope: Scope, limit: int, now: Time, later: Time)
    requires limit > 0
    requires Count(log, scope, Since(now - ROLLING_WINDOW)) >= limit
    requires log <= more
    requires later <= WindowReopensAt(log, scope, limit, now)
    ensures Count(more, scope, Since(later - ROLLING_WINDOW)) >= limit
  {
    CountMonotone(log, scope, Since(now - ROLLING_WINDOW), scope, Since(later - ROLLING_WINDOW));
    CountPrefix(log, more, scope, Since(later - ROLLING_WINDOW));
  }

  /** When exactly the limit is in the window and nothing is added, it reopens strictly after that time. */
  lemma WindowReopensExactly(log: seq<Slot>, scope: Scope, limit: int, now: Time, later: Time)
    requires limit > 0
    requires Count(log, scope, Since(now - ROLLING_WINDOW)) == limit
    ensures now <= WindowReopensAt(log, scope, limit, now)
    ensures Count(log, scope, Since(later - ROLLING_WINDOW)) < limit <==> later > WindowReopensAt(log, scope, limit, now)
  {
    var opens := WindowReopensAt(log, scope, limit, now);
    if later > opens {
      var k :| 0 <= k < |log| && scope.Covers(log[k]) && log[k].at == opens - ROLLING_WINDOW;
      CountStrict(log, scope, Since(later - ROLLING_WINDOW), Since(now - ROLLING_WINDOW), k);
    } else {
      WindowStaysShut(log, log, scope, limit, now, later);
    }
  }

  /** An instant inside another instant's local day has the same local date. */
  lemma SameLocalDay(cal: Calendar, now: Time, later: Time)
    requires cal.Valid()
    ensures cal.LocalDay(now).Has(later) <==> cal.localDate(later) == cal.localDate(now)
  {
  }

  lemma AllowedHasRoom(cal: Calendar, log: seq<Slot>, req: Request, limit: int, policy: Option<Policy>, now: Time)
    requires Check(cal, log, req, limit, policy, now).Allowed?
    ensures Count(log, OfTenant(req.tenant), Since(now - ROLLING_WINDOW)) < limit
    ensures Governing(req, policy).Some? && InForce(policy.value.perMinute).Some? ==>
              Count(log, OfDomain(req.domain.value), Since(now - ROLLING_WINDOW)) < policy.value.perMinute.value
    ensures Governing(req, policy).Some? && InForce(policy.value.daily).Some? ==>
              Count(log, OfDomain(req.domain.value), cal.LocalDay(now)) < policy.value.daily.value
  {
  }

  /** A refusal is good until the time it reports: any later check up to it refuses too, whatever slots
      other workers add.  For the daily cap the reported instant itself is already the next day. */
  lemma RefusalHolds(cal: Calendar, log: seq<Slot>, more: seq<Slot>, req: Request, limit: int, policy: Option<Policy>,
                     now: Time, later: Time)
    requires cal.Valid()
    requires log <= more && now <= later
    requires var v := Check(cal, log, req, limit, policy, now);
             v.Refused? && if v.reason == DomainDailyLimit then later < v.reopensAt else later <= v.reopensAt
    ensures Check(cal, more, req, limit, policy, later).Refused?
  {
    var v := Check(cal, log, req, limit, policy, now);
    match v.reason
    case TenantLimit =>
      if limit > 0 {
        WindowStaysShut(log, more, OfTenant(req.tenant), limit, now, later);
      }
    case DomainMinuteLimit =>
      WindowStaysShut(log, more, OfDomain(req.domain.value), InForce(policy.value.perMinute).value, now, later);
    case DomainDailyLimit =>
      SameLocalDay(cal, now, later);
      CountPrefix(log, more, OfDomain(req.domain.value), cal.LocalDay(later));
  }

  /** Local midnight lies between two readings and the later day is already full. */
  predicate NextDayIsFull(cal: Calendar, log: seq<Slot>, req: Request, policy: Option<Policy>, now: Time, later: Time) {
    && Governing(req, policy).Some? && InForce(policy.value.daily).Some?
    && cal.localDate(now) < cal.localDate(later)
    && Count(log, OfDomain(req.domain.value), cal.LocalDay(later)) >= policy.value.daily.value
  }

  /** On an unchanged log and policy, a second check later than a successful one refuses exactly when the
      local date has moved on to a day that is full, and then on the daily cap. */
  lemma LaterCheckRefusesExactlyOnFullNextDay(cal: Calendar, log: seq<Slot>, req: Request, limit: int, policy: Option<Policy>,
                                              now: Time, later: Time)
    requires cal.Valid() && now <= later
    requires Check(cal, log, req, limit, policy, now).Allowed?
    ensures var v := Check(cal, log, req, limit, policy, later);
            && (v.Refused? <==> NextDayIsFull(cal, log, req, policy, now, later))
            && (v.Refused? ==> v.reason == DomainDailyLimit)
  {
    var before, after := Since(now - ROLLING_WINDOW), Since(later - ROLLING_WINDOW);
    CountMonotone(log, OfTenant(req.tenant), after, OfTenant(req.tenant), before);
    if req.domain.Some? {
      CountMonotone(log, OfDomain(req.domain.value), after, OfDomain(req.domain.value), before);
    }
    var d, e := cal.localDate(now), cal.localDate(later);
    assert e < d ==> e + 1 == d || cal.dayStart(e + 1) < cal.dayStart(d);
  }

  /** Whatever is on record, a check refuses once the domain has used up its daily cap of `cap`. */
  ghost predicate DailyCapHonoured(cal: Calendar, req: Request, limit: int, policy: Policy, cap: nat)
    requires req.domain.Some?
  {
    forall log, now :: Count(log, OfDomain(req.domain.value), cal.LocalDay(now)) >= cap ==>
      Check(cal, log, req, limit, Some(policy), now).Refused?
  }

  /** The same for the per-minute cap. */
  ghost predicate MinuteCapHonoured(cal: Calendar, req: Request, limit: int, policy: Policy, cap: nat)
    requires req.domain.Some?
  {
    forall log, now :: Count(log, OfDomain(req.domain.value), Since(now - ROLLING_WINDOW)) >= cap ==>
      Check(cal, log, req, limit, Some(policy), now).Refused?
  }

  /** An enabled daily cap is honoured exactly when it is positive, unless the tenant is closed anyway: a cap of 0
      lets the domain send although every count reaches it. */
  lemma DailyCapHonouredIffPositive(cal: Calendar, req: Request, limit: int, policy: Policy)
    requires req.domain.Some? && policy.enabled && policy.daily.Some?
    ensures DailyCapHonoured(cal, req, limit, policy, policy.daily.value) <==> policy.daily.value > 0 || limit <= 0
  {
    EmptyLogAllows(cal, req, limit, policy, 0);
    assert Count([], OfDomain(req.domain.value), cal.LocalDay(0)) == 0;
  }

  /** So is an enabled per-minute cap. */
  lemma MinuteCapHonouredIffPositive(cal: Calendar, req: Request, limit: int, policy: Policy)
    requires req.domain.Some? && policy.enabled && policy.perMinute.Some?
    ensures MinuteCapHonoured(cal, req, limit, policy, policy.perMinute.value) <==> policy.perMinute.value > 0 || limit <= 0
  {
    EmptyLogAllows(cal, req, limit, policy, 0);
    assert Count([], OfDomain(req.domain.value), Since(0 - ROLLING_WINDOW)) == 0;
  }

  lemma EmptyLogAllows(cal: Calendar, req: Request, limit: int, policy: Policy, now: Time)
    ensures Check(cal, [], req, limit, Some(policy), now).Allowed? <==> limit > 0
  {
  }

  // ---------------------------------------------------------------------------------------------
  // The decision in plain numbers
  // ---------------------------------------------------------------------------------------------

  ghost function Rows(log: seq<Slot>, scope: Scope, span: Span): set<int> {
    set i | 0 <= i < |log| && scope.Covers(log[i]) && span.Has(log[i].at)
  }

  /** A counter counts rows: as many as there are positions in scope and in span. */
  lemma {:induction false} CountIsSize(log: seq<Slot>, scope: Scope, span: Span)
    ensures Count(log, scope, span) == |Rows(log, scope, span)|
  {
    if log != [] {
      var init, k := log[..|log| - 1], |log| - 1;
      CountIsSize(init, scope, span);
      if k in Rows(log, scope, span) {
        assert Rows(log, scope, span) == Rows(init, scope, span) + {k};
      } else {
        assert Rows(log, scope, span) == Rows(init, scope, span);
      }
    }
  }

  /** The rows the tenant's last minute, the domain's last minute and the domain's local day consist of. */
  lemma CountersReadTheirRows(log: seq<Slot>, t: TenantId, d: DomainId, lo: Time, hi: Time)
    ensures Count(log, OfTenant(t), Since(lo)) == |set i | 0 <= i < |log| && log[i].tenant == t && log[i].at >= lo|
    ensures Count(log, OfDomain(d), Since(lo)) == |set i | 0 <= i < |log| && log[i].domain == Some(d) && log[i].at >= lo|
    ensures Count(log, OfDomain(d), Between(lo, hi))
         == |set i | 0 <= i < |log| && log[i].domain == Some(d) && lo <= log[i].at < hi|
    ensures Count(log, OfTenant(t), Between(lo, hi))
         == |set i | 0 <= i < |log| && log[i].tenant == t && lo <= log[i].at < hi|
    ensures Count(log, OfSender(d), Between(lo, hi))
         == |set i | 0 <= i < |log| && log[i].sender == Some(d) && lo <= log[i].at < hi|
  {
    CountIsSize(log, OfTenant(t), Since(lo));
    CountIsSize(log, OfDomain(d), Since(lo));
    CountIsSize(log, OfDomain(d), Between(lo, hi));
    CountIsSize(log, OfTenant(t), Between(lo, hi));
    CountIsSize(log, OfSender(d), Between(lo, hi));
    assert Rows(log, OfTenant(t), Since(lo)) == set i | 0 <= i < |log| && log[i].tenant == t && log[i].at >= lo;
    assert Rows(log, OfDomain(d), Since(lo)) == set i | 0 <= i < |log| && log[i].domain == Some(d) && log[i].at >= lo;
    assert Rows(log, OfDomain(d), Between(lo, hi))
        == set i | 0 <= i < |log| && log[i].domain == Some(d) && lo <= log[i].at < hi;
    assert Rows(log, OfTenant(t), Between(lo, hi))
        == set i | 0 <= i < |log| && log[i].tenant == t && lo <= log[i].at < hi;
    assert Rows(log, OfSender(d), Between(lo, hi))
        == set i | 0 <= i < |log| && log[i].sender == Some(d) && lo <= log[i].at < hi;
  }

  /** A nullable cap that is neither NULL nor 0 is used up. */
  predicate UsedUp(cap: Option<nat>, count: nat) {
    cap.Some? && cap.value > 0 && count >= cap.value
  }

  /** Which test refuses, in numbers: the tenant's last 60 seconds, then, only under an enabled policy, the domain's,
      then the domain's local day. */
  lemma CheckDecides(cal: Calendar, log: seq<Slot>, req: Request, limit: int, policy: Option<Policy>, now: Time)
    ensures var tenantFull := Count(log, OfTenant(req.tenant), Since(now - 60_000_000)) >= limit;
            var governed := req.domain.Some? && policy.Some? && policy.value.enabled;
            var minuteFull := governed
              && UsedUp(policy.value.perMinute, Count(log, OfDomain(req.domain.value), Since(now - 60_000_000)));
            var today := Between(cal.dayStart(cal.localDate(now)), cal.dayStart(cal.localDate(now) + 1));
            var dayFull := governed && UsedUp(policy.value.daily, Count(log, OfDomain(req.domain.value), today));
            match Check(cal, log, req, limit, policy, now)
            case Allowed => !tenantFull && !minuteFull && !dayFull
            case Refused(TenantLimit, _) => tenantFull
            case Refused(DomainMinuteLimit, _) => !tenantFull && minuteFull
            case Refused(DomainDailyLimit, _) => !tenantFull && !minuteFull && dayFull
  {
  }

  /** `at` is the earliest timestamp in scope that is not before `cut`. */
  ghost predicate IsOldest(log: seq<Slot>, scope: Scope, cut: Time, at: Time) {
    && at >= cut
    && (exists i :: 0 <= i < |log| && scope.Covers(log[i]) && log[i].at == at)
    && forall i :: 0 <= i < |log| && scope.Covers(log[i]) && log[i].at >= cut ==> at <= log[i].at
  }

  /** What time a refusal reports: 60 seconds after the oldest row of the full window, or the first instant of the
      next local day. */
  lemma RefusalReports(cal: Calendar, log: seq<Slot>, req: Request, limit: int, policy: Option<Policy>, now: Time)
    requires cal.Valid() && Check(cal, log, req, limit, policy, now).Refused?
    ensures var v := Check(cal, log, req, limit, policy, now);
            match v.reason
            case TenantLimit =>
              if limit <= 0 then v.reopensAt == now + 60_000_000
              else IsOldest(log, OfTenant(req.tenant), now - 60_000_000, v.reopensAt - 60_000_000)
            case DomainMinuteLimit =>
              req.domain.Some? && IsOldest(log, OfDomain(req.domain.value), now - 60_000_000, v.reopensAt - 60_000_000)
            case DomainDailyLimit =>
              cal.localDate(v.reopensAt) == cal.localDate(now) + 1 && cal.dayStart(cal.localDate(v.reopensAt)) == v.reopensAt
  {
    var v := Check(cal, log, req, limit, policy, now);
    if v.reason == DomainDailyLimit {
      NextMidnight(cal, cal.localDate(now));
    }
  }

  lemma NextMidnight(cal: Calendar, date: int)
    requires cal.Valid()
    ensures cal.localDate(cal.dayStart(date + 1)) == date + 1
  {
    var e := cal.localDate(cal.dayStart(date + 1));
    assert e < date + 1 ==> e + 1 == date + 1 || cal.dayStart(e + 1) < cal.dayStart(date + 1);
    assert e > date + 1 ==> cal.dayStart(date + 1) < cal.dayStart(e);
  }

  /** The time a dispatch is put off to when the recheck fails is never before what a check would report then,
      and it is what one of the windows reports. */
  lemma NextSendTimeIsLateEnough(cal: Calendar, log: seq<Slot>, req: Request, limit: int, policy: Option<Policy>, now: Time)
    ensures var next, v := NextSendTime(cal, log, req, limit, policy, now), Check(cal, log, req, limit, policy, now);
            && (v.Refused? ==> v.reopensAt <= next)
            && (|| next == WindowReopensAt(log, OfTenant(req.tenant), limit, now)
                || (req.domain.Some? && policy.Some? && policy.value.enabled
                    && ((policy.value.perMinute.Some?
                         && next == WindowReopensAt(log, OfDomain(req.domain.value), policy.value.perMinute.value, now))
                        || (policy.value.daily.Some? && next == cal.dayStart(cal.localDate(now) + 1)))))
  {
  }

  // ---------------------------------------------------------------------------------------------
  // The two entry points, over the mutable slot table
  // ---------------------------------------------------------------------------------------------

  class SlotTable {
    var slots: seq<Slot>

    constructor ()
      ensures slots == []
    {
      slots := [];
    }

    /** Read-only; runs under the tenant row lock.  `now` was read before the lock was taken. */
    method CanSendNow(cal: Calendar, req: Request, limit: int, policy: Option<Policy>, now: Time) returns (verdict: Verdict)
      ensures verdict == Check(cal, slots, req, limit, policy, now)
    {
      var cut := Since(now - ROLLING_WINDOW);
      if Count(slots, OfTenant(req.tenant), cut) >= limit {
        return Refused(TenantLimit, WindowReopensAt(slots, OfTenant(req.tenant), limit, now));
      }
      if req.domain.Some? && policy.Some? && policy.value.enabled {
        var scope := OfDomain(req.domain.value);
        if policy.value.perMinute.Some? && policy.value.perMinute.value > 0 {
          var cap := policy.value.perMinute.value;
          if Count(slots, scope, cut) >= cap {
            return Refused(DomainMinuteLimit, WindowReopensAt(slots, scope, cap, now));
          }
        }
        if policy.value.daily.Some? && policy.value.daily.value > 0 {
          var day := cal.LocalDay(now);
          if Count(slots, scope, day) >= policy.value.daily.value {
            return Refused(DomainDailyLimit, day.hi);
          }
        }
      }
      return Allowed;
    }

    /** Rechecks with its own clock reading `now`, then inserts a row stamped `stamp`. */
    method RecordSendAttempt(cal: Calendar, req: Request, limit: int, policy: Option<Policy>, now: Time, stamp: Time)
      returns (recorded: bool)
      modifies this
      ensures recorded <==> Check(cal, old(slots), req, limit, policy, now).Allowed?
      ensures recorded ==> slots == old(slots) + [Reservation(req, policy, stamp)]
      ensures recorded ==> var row := slots[|old(slots)|];
                           && row.tenant == req.tenant && row.message == req.message && row.at == stamp
                           && row.domain == if policy.Some? && policy.value.enabled then req.domain else None
      ensures !recorded ==> slots == old(slots)
      // The promise behind the recheck: whatever time the row is stamped with, no cap is overrun.
      ensures recorded && cal.Valid() && now <= stamp && old(Respects(cal, slots, req, limit, policy))
              && (req.domain.Some? ==> Settled(old(slots), OfDomain(req.domain.value), now))
              ==> Respects(cal, slots, req, limit, policy)
    {
      var cut := Since(now - ROLLING_WINDOW);
      if Count(slots, OfTenant(req.tenant), cut) >= limit {
        return false;
      }
      var governed := req.domain.Some? && policy.Some? && policy.value.enabled;
      if governed {
        var scope := OfDomain(req.domain.value);
        if policy.value.perMinute.Some? && policy.value.perMinute.value > 0 {
          if Count(slots, scope, cut) >= policy.value.perMinute.value {
            return false;
          }
        }
        if policy.value.daily.Some? && policy.value.daily.value > 0 {
          if Count(slots, scope, cal.LocalDay(now)) >= policy.value.daily.value {
            return false;
          }
        }
      }
      var row := Slot(req.tenant, if governed then req.domain else None, req.domain, req.message, stamp);
      if cal.Valid() && now <= stamp && Respects(cal, slots, req, limit, policy)
         && (req.domain.Some? ==> Settled(slots, OfDomain(req.domain.value), now)) {
        AdmitKeepsCaps(cal, slots, req, limit, policy, now, stamp);
      }
      slots := slots + [row];
      return true;
    }
  }

  /** A recheck that passed at `now` lets a row stamped at any later time in without breaking a cap. */
  lemma AdmitKeepsCaps(cal: Calendar, log: seq<Slot>, req: Request, limit: int, policy: Option<Policy>, now: Time, stamp: Time)
    requires cal.Valid() && now <= stamp
    requires Respects(cal, log, req, limit, policy)
    requires req.domain.Some? ==> Settled(log, OfDomain(req.domain.value), now)
    requires Check(cal, log, req, limit, policy, now).Allowed?
    ensures Respects(cal, log + [Reservation(req, policy, stamp)], req, limit, policy)
  {
    var slot := Reservation(req, policy, stamp);
    AdmitKeepsWindow(log, OfTenant(req.tenant), limit, now, slot);
    if Governing(req, policy).Some? {
      var scope := OfDomain(req.domain.value);
      var minute, daily := InForce(policy.value.perMinute), InForce(policy.value.daily);
      if minute.Some? {
        AdmitKeepsWindow(log, scope, minute.value, now, slot);
      }
      if daily.Some? {
        AdmitKeepsDay(cal, log, scope, daily.value, now, slot);
      }
    }
  }
}
