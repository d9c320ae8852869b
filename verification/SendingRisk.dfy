/**
Reputation protection: the automated pause evaluator, the pause state of a tenant, and the message types
a pause blocks.  Rates are exact.
 */
module SendingRisk {
  import opened Options

  datatype MessageType = Transactional | Lifecycle | Marketing | System

  datatype Scope = MarketingLifecycle | NonCritical

  /** The settings with the module's defaults. */
  datatype Thresholds = Thresholds(
    complaintMarketing: real := 0.003, bounceMarketing: real := 0.05, complaintNonCritical: real := 0.01,
    failedMarketing: real := 0.12, volumeSpike: real := 4.0, volumeBaseline: int := 40, recipientSpike: real := 3.0)

  datatype Metrics = Metrics(
    bounceRate: real, complaintRate: real, failedRate: real, sentPath: int, complained: int,
    sentPathPrev: int, volumeRatio: real, recipientsPrev: int, recipientRatio: real)

  datatype Reason = ComplaintHigh | BounceHigh | ComplaintElevated | FailedHigh | VolumeSpike | RecipientSpike

  // ---------------------------------------------------------------------------------------------
  // The reference: six independent triggers, joined
  // ---------------------------------------------------------------------------------------------

  predicate Fires(t: Thresholds, m: Metrics, reason: Reason) {
    match reason
    case ComplaintHigh =>
      m.complaintRate >= t.complaintNonCritical || (m.sentPath >= 50 && m.complaintRate >= 0.005 && m.complained >= 5)
    case BounceHigh => m.bounceRate >= t.bounceMarketing
    case ComplaintElevated => m.complaintRate >= t.complaintMarketing
    case FailedHigh => m.failedRate >= t.failedMarketing
    case VolumeSpike => m.sentPathPrev >= t.volumeBaseline && m.volumeRatio >= t.volumeSpike
    case RecipientSpike => m.recipientsPrev >= 30 && m.recipientRatio >= t.recipientSpike
  }

  function ScopeOf(reason: Reason): Scope {
    if reason.ComplaintHigh? then NonCritical else MarketingLifecycle
  }

  /** No pause, then marketing and lifecycle, then everything but system mail. */
  function Strictness(scope: Option<Scope>): nat {
    match scope
    case None => 0
    case Some(MarketingLifecycle) => 1
    case Some(NonCritical) => 2
  }

  function Stricter(a: Option<Scope>, b: Option<Scope>): Option<Scope> {
    if Strictness(a) < Strictness(b) then b else a
  }

  const ALL_REASONS := [ComplaintHigh, BounceHigh, ComplaintElevated, FailedHigh, VolumeSpike, RecipientSpike]

  function Join(t: Thresholds, m: Metrics, reasons: seq<Reason>): Option<Scope> {
    if reasons == [] then None
    else Stricter(Join(t, m, reasons[..|reasons| - 1]),
                  var last := reasons[|reasons| - 1]; if Fires(t, m, last) then Some(ScopeOf(last)) else None)
  }

  function DesiredScope(t: Thresholds, m: Metrics): Option<Scope> {
    Join(t, m, ALL_REASONS)
  }

  /** The join is the least scope at least as strict as every trigger that fires. */
  lemma {:induction false} JoinIsLeastBound(t: Thresholds, m: Metrics, reasons: seq<Reason>)
    ensures forall r :: r in reasons && Fires(t, m, r) ==> Strictness(Some(ScopeOf(r))) <= Strictness(Join(t, m, reasons))
    ensures Join(t, m, reasons).Some? ==>
              exists r :: r in reasons && Fires(t, m, r) && ScopeOf(r) == Join(t, m, reasons).value
  {
    if reasons != [] {
      JoinIsLeastBound(t, m, reasons[..|reasons| - 1]);
    }
  }

  /** Worse numbers never lead to a weaker pause. */
  predicate Worse(a: Metrics, b: Metrics) {
    && a.bounceRate <= b.bounceRate && a.complaintRate <= b.complaintRate && a.failedRate <= b.failedRate
    && a.sentPath <= b.sentPath && a.complained <= b.complained && a.sentPathPrev <= b.sentPathPrev
    && a.volumeRatio <= b.volumeRatio && a.recipientsPrev <= b.recipientsPrev && a.recipientRatio <= b.recipientRatio
  }

  lemma {:induction false} JoinIsMonotone(t: Thresholds, a: Metrics, b: Metrics, reasons: seq<Reason>)
    requires Worse(a, b)
    ensures Strictness(Join(t, a, reasons)) <= Strictness(Join(t, b, reasons))
  {
    if reasons != [] {
      JoinIsMonotone(t, a, b, reasons[..|reasons| - 1]);
    }
  }

  // ---------------------------------------------------------------------------------------------
  // The evaluator
  // ---------------------------------------------------------------------------------------------

  /** What the evaluator lists: dominated complaint and failure reasons are left out once the strictest
      scope is reached, the other dominated reasons are still listed. */
  predicate Listed(t: Thresholds, m: Metrics, reason: Reason) {
    && Fires(t, m, reason)
    && (reason.ComplaintElevated? || reason.FailedHigh? ==> !Fires(t, m, ComplaintHigh))
  }

  predicate Spike(reason: Reason) {
    reason.VolumeSpike? || reason.RecipientSpike?
  }

  method EvaluateAutomatedPauseTriggers(t: Thresholds, m: Metrics) returns (scope: Option<Scope>, reasons: seq<Reason>)
    ensures scope == DesiredScope(t, m)
    ensures forall r :: r in reasons <==> Listed(t, m, r)
    ensures reasons == [] <==> scope.None?
  {
    scope, reasons := EvaluateRates(t, m);
    scope, reasons := EvaluateSpikes(t, m, scope, reasons);
    ListedDecideScope(t, m, reasons);
  }

  /** The triggers on complaint, bounce and failure rates. */
  method EvaluateRates(t: Thresholds, m: Metrics) returns (scope: Option<Scope>, reasons: seq<Reason>)
    ensures forall r :: r in reasons <==> Listed(t, m, r) && !Spike(r)
    ensures scope == if ComplaintHigh in reasons then Some(NonCritical)
                     else if reasons != [] then Some(MarketingLifecycle) else None
  {
    reasons := [];
    scope := None;
    if m.complaintRate >= t.complaintNonCritical || (m.sentPath >= 50 && m.complaintRate >= 0.005 && m.complained >= 5) {
      scope := Some(NonCritical);
      reasons := reasons + [ComplaintHigh];
    }
    if m.bounceRate >= t.bounceMarketing {
      if scope != Some(NonCritical) {
        scope := Some(MarketingLifecycle);
      }
      reasons := reasons + [BounceHigh];
    }
    if m.complaintRate >= t.complaintMarketing && scope != Some(NonCritical) {
      scope := Some(MarketingLifecycle);
      reasons := reasons + [ComplaintElevated];
    }
    if m.failedRate >= t.failedMarketing && scope != Some(NonCritical) {
      scope := Some(MarketingLifecycle);
      reasons := reasons + [FailedHigh];
    }
  }

  /** The triggers on volume and new recipients, which come on top. */
  method EvaluateSpikes(t: Thresholds, m: Metrics, scope0: Option<Scope>, reasons0: seq<Reason>)
    returns (scope: Option<Scope>, reasons: seq<Reason>)
    ensures forall r :: r in reasons <==> r in reasons0 || (Fires(t, m, r) && Spike(r))
    ensures scope == if scope0 == Some(NonCritical) || reasons == reasons0 then scope0 else Some(MarketingLifecycle)
    ensures reasons == [] ==> reasons0 == []
  {
    scope, reasons := scope0, reasons0;
    if m.sentPathPrev >= t.volumeBaseline {
      if m.volumeRatio >= t.volumeSpike {
        if scope != Some(NonCritical) {
          scope := Some(MarketingLifecycle);
        }
        reasons := reasons + [VolumeSpike];
      }
    }
    if m.recipientsPrev >= 30 {
      if m.recipientRatio >= t.recipientSpike {
        if scope != Some(NonCritical) {
          scope := Some(MarketingLifecycle);
        }
        reasons := reasons + [RecipientSpike];
      }
    }
  }

  /** The listed reasons alone already lead to the join of all triggers. */
  lemma ListedDecideScope(t: Thresholds, m: Metrics, reasons: seq<Reason>)
    requires forall r :: r in reasons <==> Listed(t, m, r)
    ensures DesiredScope(t, m) == if ComplaintHigh in reasons then Some(NonCritical)
                                  else if reasons != [] then Some(MarketingLifecycle) else None
  {
    DesiredScopeByCases(t, m);
    assert ComplaintHigh in reasons <==> Listed(t, m, ComplaintHigh);
    if reasons != [] {
      assert reasons[0] in reasons;
      assert Fires(t, m, reasons[0]);
    } else {
      assert forall r :: r !in reasons;
      assert forall r :: Fires(t, m, r) ==> Fires(t, m, ComplaintHigh) || Listed(t, m, r);
    }
  }

  lemma DesiredScopeByCases(t: Thresholds, m: Metrics)
    ensures DesiredScope(t, m) == if Fires(t, m, ComplaintHigh) then Some(NonCritical)
                                  else if exists r :: Fires(t, m, r) then Some(MarketingLifecycle) else None
  {
    JoinIsLeastBound(t, m, ALL_REASONS);
    forall r: Reason
      ensures r in ALL_REASONS
    {
      match r {
        case ComplaintHigh => assert ALL_REASONS[0] == r;
        case BounceHigh => assert ALL_REASONS[1] == r;
        case ComplaintElevated => assert ALL_REASONS[2] == r;
        case FailedHigh => assert ALL_REASONS[3] == r;
        case VolumeSpike => assert ALL_REASONS[4] == r;
        case RecipientSpike => assert ALL_REASONS[5] == r;
      }
    }
  }

  /** The scope in numbers: complaints alone can stop everything but system mail; any other threshold that is reached
      stops marketing and lifecycle mail. */
  lemma DesiredScopeInNumbers(t: Thresholds, m: Metrics)
    ensures var complaints := m.complaintRate >= t.complaintNonCritical
                              || (m.sentPath >= 50 && m.complaintRate >= 0.005 && m.complained >= 5);
            var volume := m.sentPathPrev >= t.volumeBaseline && m.volumeRatio >= t.volumeSpike;
            var recipients := m.recipientsPrev >= 30 && m.recipientRatio >= t.recipientSpike;
            DesiredScope(t, m)
            == if complaints then Some(NonCritical)
               else if m.bounceRate >= t.bounceMarketing || m.complaintRate >= t.complaintMarketing
                       || m.failedRate >= t.failedMarketing || volume || recipients
               then Some(MarketingLifecycle) else None
  {
    DesiredScopeByCases(t, m);
    assert Fires(t, m, BounceHigh) <==> m.bounceRate >= t.bounceMarketing;
    assert Fires(t, m, ComplaintElevated) <==> m.complaintRate >= t.complaintMarketing;
    assert Fires(t, m, FailedHigh) <==> m.failedRate >= t.failedMarketing;
    assert Fires(t, m, VolumeSpike) <==> m.sentPathPrev >= t.volumeBaseline && m.volumeRatio >= t.volumeSpike;
    assert Fires(t, m, RecipientSpike) <==> m.recipientsPrev >= 30 && m.recipientRatio >= t.recipientSpike;
  }

  /** With the module's defaults: 1% of complaints, or 0.5% and five of fifty messages; 5% of bounces, 0.3% of
      complaints, 12% of failures, four times the volume of forty messages, or three times thirty recipients. */
  lemma DefaultScope(m: Metrics)
    ensures DesiredScope(Thresholds(), m) == Some(NonCritical)
       <==> m.complaintRate >= 0.01 || (m.sentPath >= 50 && m.complaintRate >= 0.005 && m.complained >= 5)
    ensures DesiredScope(Thresholds(), m) == None
       <==> && m.bounceRate < 0.05 && m.complaintRate < 0.003 && m.failedRate < 0.12
            && (m.sentPathPrev < 40 || m.volumeRatio < 4.0) && (m.recipientsPrev < 30 || m.recipientRatio < 3.0)
  {
    DesiredScopeInNumbers(Thresholds(), m);
  }

  // ---------------------------------------------------------------------------------------------
  // The pause state of a tenant
  // ---------------------------------------------------------------------------------------------

  datatype Source = Manual | Auto

  /** `scope` and `source` are blank when the column is empty. */
  datatype Pause = Pause(paused: bool, scope: Option<Scope>, source: Option<Source>)

  const NOT_PAUSED := Pause(false, Some(MarketingLifecycle), None)

  function AfterEvaluation(pause: Pause, desired: Option<Scope>): Pause {
    if pause.paused && pause.source == Some(Manual) then pause
    else if desired.Some? then Pause(true, desired, Some(Auto))
    else pause
  }

  /** What a pause review may do: leave a manual pause as it is; otherwise pause at least as strictly as every
      trigger that fires demands, and change nothing if none does. */
  ghost predicate Reviewed(t: Thresholds, m: Metrics, was: Pause, after: Pause) {
    && (ByHand(was) || (forall r :: !Fires(t, m, r)) ==> after == was)
    && (was.paused ==> after.paused)
    && (forall r :: !ByHand(was) && Fires(t, m, r) ==>
          after.paused && after.source == Some(Auto) && Strictness(Some(ScopeOf(r))) <= Strictness(after.scope))
  }

  lemma EvaluationReviews(t: Thresholds, m: Metrics, pause: Pause)
    ensures Reviewed(t, m, pause, AfterEvaluation(pause, DesiredScope(t, m)))
  {
    DesiredScopeByCases(t, m);
  }

  function AfterEvaluations(t: Thresholds, pause: Pause, history: seq<Metrics>): Pause
    decreases |history|
  {
    if history == [] then pause
    else AfterEvaluations(t, AfterEvaluation(pause, DesiredScope(t, history[0])), history[1..])
  }

  /** The desired scope of the last evaluation at which some trigger fired. */
  function LastDesired(t: Thresholds, history: seq<Metrics>): Option<Scope> {
    if history == [] then None
    else
      var later := LastDesired(t, history[1..]);
      if later.Some? then later else DesiredScope(t, history[0])
  }

  predicate ByHand(pause: Pause) {
    pause.paused && pause.source == Some(Manual)
  }

  /** Over any number of evaluations a manual pause stays exactly as the operator set it, a paused tenant stays
      paused, and any other pause ends up as the last evaluation that found a trigger wants it, even if an
      earlier one wanted it stricter. */
  lemma {:induction false} AutomationRespectsPauses(t: Thresholds, pause: Pause, history: seq<Metrics>)
    ensures ByHand(pause) ==> AfterEvaluations(t, pause, history) == pause
    ensures pause.paused ==> AfterEvaluations(t, pause, history).paused
    ensures !ByHand(pause) ==>
              AfterEvaluations(t, pause, history)
              == if LastDesired(t, history).Some? then Pause(true, LastDesired(t, history), Some(Auto)) else pause
    decreases |history|
  {
    if history != [] {
      AutomationRespectsPauses(t, AfterEvaluation(pause, DesiredScope(t, history[0])), history[1..]);
    }
  }

  // ---------------------------------------------------------------------------------------------
  // What a pause blocks
  // ---------------------------------------------------------------------------------------------

  /** `message_type_blocked_by_sending_pause`; a blank scope counts as marketing and lifecycle. */
  predicate Blocked(pause: Pause, messageType: MessageType) {
    pause.paused
    && match pause.scope
       case Some(NonCritical) => !messageType.System?
       case _ => messageType.Marketing? || messageType.Lifecycle?
  }

  /** A stricter scope blocks everything a weaker one does, and system mail is never blocked. */
  lemma StricterBlocksMore(a: Pause, b: Pause, messageType: MessageType)
    requires a.paused ==> b.paused
    requires a.paused && a.scope.Some? ==> Strictness(a.scope) <= Strictness(b.scope)
    ensures Blocked(a, messageType) ==> Blocked(b, messageType)
    ensures !Blocked(a, System)
  {
  }

  /** One evaluation lets through a message type that was blocked exactly when it finds a lesser trigger, and no
      high complaint rate, under a pause of everything but system mail that no operator set. */
  lemma EvaluationUnblocksIff(t: Thresholds, m: Metrics, pause: Pause)
    ensures var after := AfterEvaluation(pause, DesiredScope(t, m));
            (exists kind :: Blocked(pause, kind) && !Blocked(after, kind))
            <==> pause.paused && pause.source != Some(Manual) && pause.scope == Some(NonCritical)
                 && !Fires(t, m, ComplaintHigh) && exists r :: Fires(t, m, r)
  {
    DesiredScopeByCases(t, m);
    var after := AfterEvaluation(pause, DesiredScope(t, m));
    assert pause.paused && pause.scope == Some(NonCritical) ==> Blocked(pause, Transactional);
    assert after.scope == Some(MarketingLifecycle) ==> !Blocked(after, Transactional);
  }
}
