/**
The same operations as the code performs them: statement by statement on mutable tables.  Each method does
exactly what its specification function says, keeps the tables consistent, and promises its caller what the
operation is for.
 */
module MailStore {
  import opened Options
  import opened Strings
  import opened MailModel
  import T = Throttling
  import R = SendingRisk
  import L = MailLifecycle
  import P = MailSuppression
  import W = MailWebhooks

  /** Calls, slots and events are accounted for, no event identifier is on record twice, and the suppression
      list is well kept. */
  ghost predicate Consistent(s: Mail) {
    L.Inv(s.box) && W.EventsOnce(s.box.events) && P.WellKept(s.registry)
  }

  class Store {
    var messages: seq<Message>
    var events: seq<Event>
    var slots: seq<T.Slot>
    var handoffs: seq<Handoff>
    var bounces: seq<Bounce>
    var complaints: seq<Complaint>
    var suppressions: seq<Suppression>
    var removals: seq<Removal>
    var unsubscribes: set<(TenantId, string)>
    var nextId: nat
    var tenants: map<TenantId, Tenant>
    var policies: map<T.DomainId, T.Policy>

    function Box(): Outbox
      reads this
    {
      Outbox(messages, events, slots, handoffs, bounces, complaints)
    }

    function Registered(): Registry
      reads this
    {
      Registry(suppressions, removals, unsubscribes, nextId)
    }

    function View(): Mail
      reads this
    {
      Mail(Box(), Registered(), tenants, policies)
    }

    ghost predicate Valid()
      reads this
    {
      Consistent(View())
    }

    constructor ()
      ensures View() == EMPTY && Valid()
    {
      messages, events, slots, handoffs, bounces, complaints := [], [], [], [], [], [];
      suppressions, removals, unsubscribes, nextId := [], [], {}, 0;
      tenants, policies := map[], map[];
    }

    // -------------------------------------------------------------------------------------------
    // Creating messages
    // -------------------------------------------------------------------------------------------

    /** `create_templated_message`; None stands for a raised PolicyError or ValueError. */
    method CreateTemplatedMessage(r: Request) returns (id: Option<nat>)
      requires Valid()
      modifies this
      ensures View() == Create(old(View()), r) && Valid()
      ensures id == if Accepted(old(View()), r) then Some(|old(messages)|) else None
    {
      CreateKeeps(View(), r);
      if r.refused || (!r.bypassPause && R.Blocked(View().TenantOf(r.tenant).pause, r.kind)) {
        return None;
      }
      var suppressed := ShouldSuppress(Registered(), r.tenant, r.to, r.kind);
      if !r.approved {
        return None;
      }
      var i := |messages|;
      var m := Message(r.tenant, r.kind, r.to, r.domain, if suppressed then Suppressed else Queued, "", 0, None, None, r.now);
      messages := messages + [m];
      if suppressed {
        events := events + [Event(i, SuppressedEvent, "", false)];
        return Some(i);
      }
      if !r.renders {
        messages := messages[i := m.(status := Failed)];
        events := events + [Event(i, FailedEvent, "", false)];
        return Some(i);
      }
      messages := messages[i := m.(status := Rendered)];
      events := events + [Event(i, RenderedEvent, "", false)];
      ApplySendSchedule(i, r.scheduledFor, r.now);
      return Some(i);
    }

    /** `create_raw_message`: no template to approve and nothing to render. */
    method CreateRawMessage(r: Request) returns (id: Option<nat>)
      requires Valid()
      modifies this
      ensures View() == Create(old(View()), r.(approved := true, renders := true)) && Valid()
      ensures id == if Accepted(old(View()), r.(approved := true)) then Some(|old(messages)|) else None
    {
      id := CreateTemplatedMessage(r.(approved := true, renders := true));
    }

    /** Moves RENDERED to QUEUED. */
    method ApplySendSchedule(i: nat, scheduledFor: Option<Time>, now: Time)
      requires i < |messages|
      modifies this`messages, this`events
      ensures messages[..] == if old(messages)[i].status == Rendered
                              then old(messages)[i := old(messages)[i].(status := Queued, updatedAt := now,
                                     sendAfter := Some(if scheduledFor.Some? then scheduledFor.value else now))]
                              else old(messages)
      ensures events == if old(messages)[i].status == Rendered then old(events) + [Event(i, QueuedEvent, "", false)] else old(events)
    {
      var when := if scheduledFor.Some? then scheduledFor.value else now;
      if messages[i].status != Rendered {
        return;
      }
      messages := messages[i := messages[i].(status := Queued, sendAfter := Some(when), updatedAt := now)];
      events := events + [Event(i, QueuedEvent, "", false)];
    }

    // -------------------------------------------------------------------------------------------
    // Dispatching
    // -------------------------------------------------------------------------------------------

    method DispatchMessageTask(site: Site, a: Attempt)
      requires Valid()
      modifies this
      ensures View() == Dispatch(site, old(View()), a) && Valid()
    {
      DispatchKeeps(site, View(), a);
      var i := a.message;
      if i >= |messages| {
        return;
      }
      if messages[i].status != Queued && messages[i].status != Deferred {
        return;
      }
      if messages[i].sendAfter.Some? && messages[i].sendAfter.value > a.started {
        return;
      }
      var reserved := ReserveCapacity(site, a);
      if !reserved {
        return;
      }
      var raised := DispatchToProvider(a);
      if raised {
        DeferWithBackoff(i, a.finished);
      }
    }

    /** The task's handler of an exception. */
    method DeferWithBackoff(i: nat, now: Time)
      requires i < |messages|
      modifies this`messages
      ensures Box() == BackOff(old(Box()), i, now)
    {
      var m := messages[i];
      var retries := m.retryCount + 1;
      messages := messages[i := m.(retryCount := retries, status := Deferred,
                                   nextRetryAt := Some(now + Backoff(retries)), updatedAt := now)];
    }

    /** The transaction: check, then record a slot, or defer the message and say false. */
    method ReserveCapacity(site: Site, a: Attempt) returns (reserved: bool)
      requires Dispatchable(View(), a)
      modifies this`messages, this`events, this`slots
      ensures reserved <==> CapacityCheck(site, old(View()), a.message, a.checkedAt).Allowed?
                            && CapacityCheck(site, old(View()), a.message, a.recheckedAt).Allowed?
      ensures reserved ==> messages == old(messages) && events == old(events)
                           && slots == old(slots) + [T.Reservation(SlotRequest(messages[a.message], a.message),
                                                                   PolicyFor(old(View()), messages[a.message]), a.stamp)]
      ensures !reserved ==> View() == Dispatch(site, old(View()), a)
    {
      var i, m := a.message, messages[a.message];
      var verdict := CapacityCheck(site, View(), i, a.checkedAt);
      if verdict.Refused? {
        DeferUntil(i, verdict.reopensAt, a.finished);
        return false;
      }
      var recheck := CapacityCheck(site, View(), i, a.recheckedAt);
      if recheck.Refused? {
        var until := T.NextSendTime(site.calendar(m.tenant), slots, SlotRequest(m, i), Limit(site, View(), m),
                                    PolicyFor(View(), m), a.finished);
        DeferUntil(i, until, a.finished);
        return false;
      }
      slots := slots + [T.Reservation(SlotRequest(m, i), PolicyFor(View(), m), a.stamp)];
      return true;
    }

    method DeferUntil(i: nat, until: Time, now: Time)
      requires i < |messages|
      modifies this`messages, this`events
      ensures Box() == Defer(old(Box()), i, until, now)
    {
      messages := messages[i := messages[i].(status := Deferred, nextRetryAt := Some(until), updatedAt := now)];
      events := events + [Event(i, DeferredEvent, "", false)];
    }

    /** `EmailDispatchService.dispatch`; true stands for an exception, which may leave the row at SENDING. */
    method DispatchToProvider(a: Attempt) returns (raised: bool)
      requires a.message < |messages|
      modifies this`messages, this`events, this`handoffs
      ensures |messages| == |old(messages)|
      ensures HandOver(old(View()), a) == if raised then BackOff(Box(), a.message, a.finished) else Box()
    {
      var i, m := a.message, messages[a.message];
      if R.Blocked(View().TenantOf(m.tenant).pause, m.kind) {
        messages := messages[i := m.(status := Failed, retryCount := m.retryCount + 1, updatedAt := a.finished)];
        events := events + [Event(i, FailedEvent, "", false)];
        return false;
      }
      if a.gateBlocks {
        messages := messages[i := m.(status := Failed, retryCount := m.retryCount + 1, updatedAt := a.finished)];
        events := events + [Event(i, FailedEvent, "", false)];
        return false;
      }
      if a.provider.Breaks? {
        return true;
      }
      messages := messages[i := m.(status := Sending)];
      if a.provider.Accepts? {
        handoffs := handoffs + [Handoff(i, true)];
        messages := messages[i := m.(status := Sent, providerId := a.provider.id, updatedAt := a.finished)];
        events := events + [Event(i, SentEvent, "", false)];
        return false;
      }
      handoffs := handoffs + [Handoff(i, false)];
      if a.provider.Raises? {
        return true;
      }
      messages := messages[i := m.(status := Failed, retryCount := m.retryCount + 1, updatedAt := a.finished)];
      events := events + [Event(i, FailedEvent, "", false)];
      return false;
    }

    // -------------------------------------------------------------------------------------------
    // Actions and sweeps
    // -------------------------------------------------------------------------------------------

    /** False stands for "Not retryable".  A message is retried only if webhooks have reopened it as often as
        it has been accepted, and is then ready for dispatch; no other message changes. */
    method RetryOutboundMessage(i: nat, now: Time) returns (ok: bool)
      requires Valid()
      modifies this`messages
      ensures View() == Retry(old(View()), i, now) && Valid()
      ensures ok <==> i < |old(messages)| && old(messages)[i].status in {Failed, Deferred}
      ensures ok ==> L.AcceptedOf(handoffs, i) <= L.ReopeningsOf(events, i)
      ensures ok ==> forall a: Attempt ::
                       Dispatchable(View(), a.(message := i))
                       <==> messages[i].sendAfter.None? || messages[i].sendAfter.value <= a.started
      ensures OnlyChanges(old(messages), messages, i) && (!ok ==> messages == old(messages))
    {
      L.RetryKeeps(View(), i, now);
      if i >= |messages| || (messages[i].status != Failed && messages[i].status != Deferred) {
        return false;
      }
      assert L.Metered(Box(), i);
      messages := messages[i := messages[i].(status := Queued, nextRetryAt := None, updatedAt := now)];
      return true;
    }

    /** False stands for "Cannot cancel".  A cancelled message is not dispatched, retried, requeued or cancelled
        again, and no other message changes. */
    method CancelOutboundMessage(i: nat, now: Time) returns (ok: bool)
      requires Valid()
      modifies this`messages
      ensures View() == Cancel(old(View()), i, now) && Valid()
      ensures ok <==> i < |old(messages)| && old(messages)[i].status in {Queued, Rendered, Deferred}
      ensures ok ==> L.AtRest(messages[i].status)
      ensures ok ==> forall a: Attempt :: a.message == i ==> !Dispatchable(View(), a)
      ensures ok ==> forall later :: Retry(View(), i, later) == Cancel(View(), i, later) == View()
                                     && !RetryDue(messages[i], later)
      ensures OnlyChanges(old(messages), messages, i) && (!ok ==> messages == old(messages))
    {
      L.CancelKeeps(View(), i, now);
      if i >= |messages| || (messages[i].status != Queued && messages[i].status != Rendered && messages[i].status != Deferred) {
        return false;
      }
      messages := messages[i := messages[i].(status := Cancelled, updatedAt := now)];
      return true;
    }

    /** Requeues due deferred messages, newest first, at most a batch of them. */
    method RetryDueDeferredTask(now: Time) returns (count: nat)
      requires Valid()
      modifies this`messages
      ensures View() == RetryDueDeferred(old(View()), now) && Valid()
      ensures count <= RETRY_BATCH
    {
      L.RetryDueKeeps(View(), now);
      count := RequeueBatch(now, RETRY_BATCH);
    }

    method RequeueBatch(now: Time, limit: nat) returns (count: nat)
      modifies this`messages
      ensures messages == Requeued(old(messages), now, limit)
      ensures count <= limit
    {
      ghost var before, done := messages, [];
      count := 0;
      var k := |messages|;
      assert before[..k] == before;
      while k > 0
        invariant 0 <= k <= |before| && count <= limit
        invariant messages == before[..k] + done
        invariant Requeued(before, now, limit) == Requeued(before[..k], now, limit - count) + done
      {
        k := k - 1;
        var m := messages[k];
        var due := RetryDue(m, now) && count < limit;
        RequeuedUnfolds(before, k, now, limit - count, done);
        if due {
          m := m.(status := Queued, updatedAt := now);
          messages := messages[k := m];
          count := count + 1;
        }
        done := [m] + done;
      }
    }

    // -------------------------------------------------------------------------------------------
    // Webhooks
    // -------------------------------------------------------------------------------------------

    /** `_create_message_event_idempotent`; true when a row was created, which is when the event had no
        identifier or was not on record.  Either way it is on record afterwards. */
    method CreateMessageEventIdempotent(i: nat, kind: EventType, eventId: string) returns (created: bool)
      modifies this`events
      ensures Box() == LogOnce(old(Box()), i, kind, eventId)
      ensures SeenAs(events, i, kind, eventId)
      ensures created <==> eventId == "" || !old(SeenAs(events, i, kind, eventId))
      ensures events == old(events) + if created then [Event(i, kind, eventId, true)] else []
    {
      if eventId != "" && SeenAs(events, i, kind, eventId) {
        return false;
      }
      events := events + [Event(i, kind, eventId, true)];
      assert events[|events| - 1] in events;
      return true;
    }

    /** `_apply_suppression_unique`, and the row half of `create_manual_suppression`: whatever was on the list,
        exactly one entry for the address and reason is afterwards, as given, and no other has changed. */
    method ApplySuppressionUnique(tenant: Option<TenantId>, email: string, reason: Reason, marketing: bool,
                                  transactional: bool, metadata: Metadata)
      requires P.WellKept(Registered()) && P.ChannelsFit(reason, marketing, transactional)
      modifies this`suppressions, this`nextId
      ensures Registered() == Suppress(old(Registered()), tenant, email, reason, marketing, transactional, metadata)
      ensures P.WellKept(Registered())
      ensures var canonical := Lower(Strip(email));
              if canonical == "" then Registered() == old(Registered())
              else P.OnlyEntry(suppressions, tenant, canonical, reason, marketing, transactional, metadata)
                   && P.OthersStay(old(suppressions), suppressions, tenant, canonical, reason)
    {
      P.SuppressMeans(Registered(), tenant, email, reason, marketing, transactional, metadata);
      P.SuppressKeeps(Registered(), tenant, email, reason, marketing, transactional, metadata);
      var canonical := Lower(Strip(email));
      if canonical == "" {
        return;
      }
      var found := FindRow(suppressions, tenant, canonical, reason);
      if found.Some? {
        var row := suppressions[found.value];
        suppressions := suppressions[found.value :=
          row.(marketing := marketing, transactional := transactional, metadata := row.metadata + metadata)];
        return;
      }
      suppressions := suppressions + [Suppression(nextId, tenant, canonical, reason, marketing, transactional, metadata)];
      nextId := nextId + 1;
    }

    /** A manual pause stays, no pause is lifted, every trigger that fires is honoured, and no other tenant
        is touched. */
    method ApplyAutomatedRiskPause(site: Site, tenant: TenantId, now: Time)
      modifies this`tenants
      ensures View() == RiskPause(site, old(View()), tenant, now)
      ensures R.Reviewed(site.thresholds, site.metrics(messages, tenant, now), old(View().TenantOf(tenant).pause),
                         View().TenantOf(tenant).pause)
      ensures forall other :: other != tenant ==> View().TenantOf(other) == old(View()).TenantOf(other)
    {
      var t := View().TenantOf(tenant);
      R.EvaluationReviews(site.thresholds, site.metrics(messages, tenant, now), t.pause);
      if t.pause.paused && t.pause.source == Some(R.Manual) {
        return;
      }
      var desired, _ := R.EvaluateAutomatedPauseTriggers(site.thresholds, site.metrics(messages, tenant, now));
      if desired.Some? && t.pause != R.Pause(true, desired, Some(R.Auto)) {
        tenants := tenants[tenant := t.(pause := R.Pause(true, desired, Some(R.Auto)))];
      }
    }

    method ApplyWebhook(site: Site, w: Webhook)
      requires Valid()
      modifies this
      ensures View() == Ingest(site, old(View()), w) && Valid()
    {
      IngestKeeps(site, View(), w);
      var mid := Strip(w.messageId);
      if mid == "" {
        return;
      }
      var found := Lookup(messages, mid);
      if found.None? {
        return;
      }
      var i := found.value;
      if w.eventId != "" && Seen(events, i, w.eventId) {
        return;
      }
      ApplyToMessage(site, i, w);
    }

    method ApplyToMessage(site: Site, i: nat, w: Webhook)
      requires i < |messages| && P.WellKept(Registered())
      modifies this
      ensures View() == OnHook(site, old(View()), i, w)
    {
      match w.kind {
        case DeliveredHook =>
          messages := messages[i := messages[i].(status := Delivered, updatedAt := w.now)];
          var _ := CreateMessageEventIdempotent(i, DeliveredEvent, w.eventId);
        case OpenedHook =>
          var _ := CreateMessageEventIdempotent(i, OpenedEvent, w.eventId);
        case ClickedHook =>
          var _ := CreateMessageEventIdempotent(i, ClickedEvent, w.eventId);
        case BouncedHook =>
          ApplyBounce(site, i, w);
        case ComplainedHook =>
          ApplyComplaint(site, i, w);
        case FailedHook =>
          if w.terminal {
            messages := messages[i := messages[i].(status := Failed, updatedAt := w.now)];
            var _ := CreateMessageEventIdempotent(i, FailedEvent, w.eventId);
          } else {
            if messages[i].status == Sending || messages[i].status == Sent {
              messages := messages[i := messages[i].(status := Deferred, updatedAt := w.now)];
            }
            var _ := CreateMessageEventIdempotent(i, DeferredEvent, w.eventId);
          }
        case UnknownHook =>
      }
    }

    /** The end that hard bounces and complaints share. */
    method SuppressAndReview(site: Site, tenant: TenantId, email: string, reason: Reason, transactional: bool,
                             metadata: Metadata, now: Time)
      requires P.WellKept(Registered()) && P.ChannelsFit(reason, true, transactional)
      modifies this`suppressions, this`nextId, this`tenants
      ensures View() == RiskPause(site, old(View()).(registry :=
                          Suppress(old(Registered()), Some(tenant), email, reason, true, transactional, metadata)), tenant, now)
    {
      ApplySuppressionUnique(Some(tenant), email, reason, true, transactional, metadata);
      ApplyAutomatedRiskPause(site, tenant, now);
    }

    method RecordBounce(i: nat, w: Webhook) returns (kind: string)
      requires i < |messages|
      modifies this`messages, this`events, this`bounces
      ensures Box() == BouncedBox(old(Box()), i, w)
      ensures kind == OrElse(w.bounceType, "soft")
    {
      var m := messages[i];
      kind := OrElse(w.bounceType, "soft");
      bounces := bounces + [Bounce(m.tenant, HookAddress(m, w), i, kind, w.reason)];
      if kind == "hard" {
        messages := messages[i := m.(status := Bounced, updatedAt := w.now)];
        var _ := CreateMessageEventIdempotent(i, BouncedEvent, w.eventId);
      } else {
        messages := messages[i := m.(status := Deferred, updatedAt := w.now)];
        var _ := CreateMessageEventIdempotent(i, DeferredEvent, w.eventId);
      }
    }

    method ApplyBounce(site: Site, i: nat, w: Webhook)
      requires i < |messages| && P.WellKept(Registered())
      modifies this
      ensures View() == OnBounce(site, old(View()), i, w)
    {
      var m := messages[i];
      var kind := RecordBounce(i, w);
      if kind == "hard" {
        SuppressAndReview(site, m.tenant, HookAddress(m, w), HardBounce, true, HookMetadata(w, "reason", w.reason), w.now);
      }
    }

    method RecordComplaint(i: nat, w: Webhook) returns (feedback: string)
      requires i < |messages|
      modifies this`messages, this`events, this`complaints
      ensures Box() == ComplainedBox(old(Box()), i, w)
      ensures feedback == OrElse(w.reason, "spam")
    {
      var m := messages[i];
      messages := messages[i := m.(status := Complained, updatedAt := w.now)];
      var _ := CreateMessageEventIdempotent(i, ComplainedEvent, w.eventId);
      feedback := OrElse(w.reason, "spam");
      complaints := complaints + [Complaint(m.tenant, HookAddress(m, w), i, Cut(feedback, 64))];
    }

    method ApplyComplaint(site: Site, i: nat, w: Webhook)
      requires i < |messages| && P.WellKept(Registered())
      modifies this
      ensures View() == OnComplaint(site, old(View()), i, w)
    {
      var m := messages[i];
      var feedback := RecordComplaint(i, w);
      SuppressAndReview(site, m.tenant, HookAddress(m, w), SpamComplaint, false,
                        HookMetadata(w, "feedback_type", Cut(feedback, 256)), w.now);
    }

    // -------------------------------------------------------------------------------------------
    // The suppression list by hand
    // -------------------------------------------------------------------------------------------

    /** False stands for "email is required".  Otherwise the address has exactly the manual entry given, and every
        message the entry stops is from now on suppressed. */
    method CreateManualSuppression(tenant: Option<TenantId>, email: string, marketing: bool, transactional: bool,
                                   metadata: Metadata) returns (ok: bool)
      requires Valid()
      modifies this`suppressions, this`nextId
      ensures View() == AddManual(old(View()), tenant, email, marketing, transactional, metadata) && Valid()
      ensures ok <==> Strip(email) != ""
      ensures !ok ==> View() == old(View())
      ensures ok ==> var canonical := Lower(Strip(email));
                     && P.OnlyEntry(suppressions, tenant, canonical, Manual, marketing, transactional, metadata)
                     && P.OthersStay(old(suppressions), suppressions, tenant, canonical, Manual)
      ensures ok ==> forall t, to, kind ::
                       P.Stops(Suppression(0, tenant, Lower(Strip(email)), Manual, marketing, transactional, metadata), t, to, kind)
                       ==> ShouldSuppress(Registered(), t, to, kind)
    {
      if Lower(Strip(email)) == "" {
        return false;
      }
      forall t, to, kind
        ensures P.Stops(Suppression(0, tenant, Lower(Strip(email)), Manual, marketing, transactional, metadata), t, to, kind)
            ==> ShouldSuppress(Suppress(Registered(), tenant, email, Manual, marketing, transactional, metadata), t, to, kind)
      {
        P.EntryDecides(Registered(), tenant, email, Manual, marketing, transactional, metadata, t, to, kind);
      }
      ApplySuppressionUnique(tenant, email, Manual, marketing, transactional, metadata);
      return true;
    }

    /** A row that is there is traded for an audit row of what it said; all others stay. */
    method RemoveSuppressionWithAudit(id: nat)
      requires Valid()
      modifies this`suppressions, this`removals
      ensures View() == Remove(old(View()), id) && Valid()
      ensures old(P.Present(suppressions, id)) ==> P.Traded(old(Registered()), Registered(), id)
      ensures !old(P.Present(suppressions, id)) ==> View() == old(View())
      ensures !P.Present(suppressions, id)
    {
      P.RemoveKeeps(View(), id);
      var found := FindId(suppressions, id);
      if found.None? {
        return;
      }
      P.RemovalTrades(View(), id);
      var row := suppressions[found.value];
      removals := removals + [Removal(row.id, row.email, row.tenant, row.reason, row.metadata)];
      suppressions := suppressions[..found.value] + suppressions[found.value + 1..];
    }
  }

  // ---------------------------------------------------------------------------------------------
  // What keeps the tables consistent
  // ---------------------------------------------------------------------------------------------

  /** Message i at most is different. */
  predicate OnlyChanges(messages: seq<Message>, messages': seq<Message>, i: nat) {
    |messages'| == |messages| && forall j :: 0 <= j < |messages| && j != i ==> messages'[j] == messages[j]
  }

  lemma CreateKeeps(s: Mail, r: Request)
    requires Consistent(s)
    ensures Consistent(Create(s, r))
  {
    L.CreateKeeps(s, r);
    W.CreateLogsOwn(s, r);
    W.OwnEventsKeep(s.box.events, Create(s, r).box.events);
  }

  lemma DispatchKeeps(site: Site, s: Mail, a: Attempt)
    requires Consistent(s)
    ensures Consistent(Dispatch(site, s, a))
  {
    L.DispatchKeeps(site, s, a);
    W.DispatchLogsOwn(site, s, a);
    W.OwnEventsKeep(s.box.events, Dispatch(site, s, a).box.events);
  }

  lemma IngestKeeps(site: Site, s: Mail, w: Webhook)
    requires Consistent(s)
    ensures Consistent(Ingest(site, s, w))
  {
    L.IngestKeeps(site, s, w);
    W.IngestKeepsEventsOnce(site, s, w);
    P.HookKeeps(site, s, w);
  }

  /** The specification, taken apart at the newest message not yet visited. */
  lemma RequeuedUnfolds(before: seq<Message>, k: nat, now: Time, budget: nat, done: seq<Message>)
    requires k < |before|
    ensures var m := before[k];
            var due := RetryDue(m, now) && budget > 0;
            var m' := if due then m.(status := Queued, updatedAt := now) else m;
            && Requeued(before[..k + 1], now, budget) + done
               == Requeued(before[..k], now, if due then budget - 1 else budget) + ([m'] + done)
            && (before[..k + 1] + done)[k := m'] == before[..k] + ([m'] + done)
  {
    assert before[..k + 1][..k] == before[..k];
  }
}
