/**
What each operation does to a message, in plain terms: the statuses, counters, calls and records an observer of
the database would see, without the helpers the operations are built from.
 */
module MailOutcomes {
  import opened Options
  import opened Strings
  import opened MailModel
  import L = MailLifecycle
  import P = MailSuppression
  import R = SendingRisk
  import T = Throttling
  import W = MailWebhooks

  /** Every message but the i-th is as it was. */
  predicate OthersAsBefore(box: Outbox, box': Outbox, i: nat) {
    && |box'.messages| == |box.messages|
    && forall j :: 0 <= j < |box.messages| && j != i ==> box'.messages[j] == box.messages[j]
  }

  // ---------------------------------------------------------------------------------------------
  // Creation
  // ---------------------------------------------------------------------------------------------

  /** A pause of the tenant that covers the message type: any pause covers marketing and lifecycle mail, a non-critical
      one transactional mail, too; system mail is never covered. */
  predicate HeldBack(pause: R.Pause, kind: R.MessageType) {
    pause.paused && (kind == R.Marketing || kind == R.Lifecycle || (kind == R.Transactional && pause.scope == Some(R.NonCritical)))
  }

  /** A request is turned down without a trace, or makes one message for the tenant and address it names: suppressed,
      failed, or queued for the requested time or else now, with the events of its way there. */
  lemma CreationOutcome(site: Site, s: Mail, r: Request)
    ensures var s', i := Create(s, r), |s.box.messages|;
            if r.refused || !r.approved || (!r.bypassPause && HeldBack(s.TenantOf(r.tenant).pause, r.kind)) then s' == s
            else
              && |s'.box.messages| == i + 1 && s'.box.messages[..i] == s.box.messages
              && s'.registry == s.registry && s'.tenants == s.tenants
              && s'.box.handoffs == s.box.handoffs && s'.box.slots == s.box.slots
              && var m := s'.box.messages[i];
                 && m.tenant == r.tenant && m.to == r.to && m.kind == r.kind && m.domain == r.domain
                 && m.providerId == "" && m.retryCount == 0 && m.nextRetryAt == None
                 && if ShouldSuppress(s.registry, r.tenant, r.to, r.kind) then
                      m.status == Suppressed && m.sendAfter == None
                      && s'.box.events == s.box.events + [Event(i, SuppressedEvent, "", false)]
                    else if !r.renders then
                      m.status == Failed && m.sendAfter == None
                      && s'.box.events == s.box.events + [Event(i, FailedEvent, "", false)]
                    else
                      m.status == Queued
                      && m.sendAfter == Some(if r.scheduledFor.Some? then r.scheduledFor.value else r.now)
                      && s'.box.events
                         == s.box.events + [Event(i, RenderedEvent, "", false), Event(i, QueuedEvent, "", false)]
  {
  }

  // ---------------------------------------------------------------------------------------------
  // Dispatch
  // ---------------------------------------------------------------------------------------------

  /** Delays double from one second, and stay at 256 seconds from the eighth retry on: the cap of 300 seconds that the
      code writes down is never reached. */
  lemma BackoffDoubles(n: nat)
    ensures Backoff(0) == 1_000_000
    ensures n < 8 ==> Backoff(n + 1) == 2 * Backoff(n)
    ensures n >= 8 ==> Backoff(n) == 256_000_000
  {
    PowersTo8();
    assert n < 8 ==> n in {0, 1, 2, 3, 4, 5, 6, 7};
  }

  lemma PowersTo8()
    ensures Power2(0) == 1 && Power2(1) == 2 && Power2(2) == 4 && Power2(3) == 8 && Power2(4) == 16
    ensures Power2(5) == 32 && Power2(6) == 64 && Power2(7) == 128 && Power2(8) == 256
  {
    assert Power2(1) == 2 && Power2(2) == 4;
    assert Power2(3) == 8 && Power2(4) == 16;
    assert Power2(5) == 32 && Power2(6) == 64;
  }

  /** The limit a dispatch is held to: for a message without a domain of its own, the tenant's configured rate, or the
      floor if none is configured, over the last 60 seconds. */
  lemma CapacityWithoutDomain(site: Site, s: Mail, i: nat, now: Time)
    requires i < |s.box.messages| && s.box.messages[i].domain == None
    ensures var t := s.box.messages[i].tenant;
            var rate := s.TenantOf(t).rate;
            CapacityCheck(site, s, i, now).Allowed?
            <==> T.Count(s.box.slots, T.OfTenant(t), T.Since(now - 60_000_000)) < if rate > 0 then rate else site.floor
  {
  }

  /** And for one with a domain, the domain's own caps on top, if it has an enabled policy. */
  lemma CapacityWithDomain(site: Site, s: Mail, i: nat, d: T.DomainId, now: Time)
    requires i < |s.box.messages| && s.box.messages[i].domain == Some(d)
    ensures var t := s.box.messages[i].tenant;
            var rate := s.TenantOf(t).rate;
            var cal, ofDomain := site.calendar(t), T.OfDomain(d);
            var minute := T.Count(s.box.slots, ofDomain, T.Since(now - 60_000_000));
            var today := T.Between(cal.dayStart(cal.localDate(now)), cal.dayStart(cal.localDate(now) + 1));
            CapacityCheck(site, s, i, now).Allowed?
            <==> && T.Count(s.box.slots, T.OfTenant(t), T.Since(now - 60_000_000)) < (if rate > 0 then rate else site.floor)
                 && (d in s.policies && s.policies[d].enabled ==>
                       && !T.UsedUp(s.policies[d].perMinute, minute)
                       && !T.UsedUp(s.policies[d].daily, T.Count(s.box.slots, ofDomain, today)))
  {
  }

  /** A task does nothing to a message that is missing, neither queued nor deferred, or not due yet. */
  lemma DispatchSkips(site: Site, s: Mail, a: Attempt)
    requires |s.box.messages| <= a.message
          || (s.box.messages[a.message].status != Queued && s.box.messages[a.message].status != Deferred)
          || (s.box.messages[a.message].sendAfter.Some? && a.started < s.box.messages[a.message].sendAfter.value)
    ensures Dispatch(site, s, a) == s
  {
  }

  /** The message is there, queued or deferred, and due. */
  predicate Ready(s: Mail, a: Attempt) {
    && a.message < |s.box.messages|
    && (s.box.messages[a.message].status == Queued || s.box.messages[a.message].status == Deferred)
    && (s.box.messages[a.message].sendAfter.Some? ==> s.box.messages[a.message].sendAfter.value <= a.started)
  }

  /** Without capacity the message is deferred, with an event, to the time the refusal reports, and nothing is
      reserved, called or counted as a retry. */
  lemma DispatchDefers(site: Site, s: Mail, a: Attempt)
    requires Ready(s, a)
    requires CapacityCheck(site, s, a.message, a.checkedAt).Refused? || CapacityCheck(site, s, a.message, a.recheckedAt).Refused?
    ensures var i, s' := a.message, Dispatch(site, s, a);
            var m, m' := s.box.messages[i], s'.box.messages[i];
            && OthersAsBefore(s.box, s'.box, i) && s'.box.slots == s.box.slots && s'.box.handoffs == s.box.handoffs
            && s'.box.events == s.box.events + [Event(i, DeferredEvent, "", false)]
            && s'.registry == s.registry && s'.tenants == s.tenants
            && m'.status == Deferred && m'.retryCount == m.retryCount && m'.providerId == m.providerId
            && (var v := CapacityCheck(site, s, i, a.checkedAt); v.Refused? ==> m'.nextRetryAt == Some(v.reopensAt))
            && (var v := CapacityCheck(site, s, i, a.finished);
                m'.nextRetryAt.Some?
                && (CapacityCheck(site, s, i, a.checkedAt).Allowed? && v.Refused? ==> v.reopensAt <= m'.nextRetryAt.value))
  {
    var m := s.box.messages[a.message];
    T.NextSendTimeIsLateEnough(site.calendar(m.tenant), s.box.slots, SlotRequest(m, a.message), Limit(site, s, m),
                               PolicyFor(s, m), a.finished);
  }

  /** Both checks allow the send. */
  predicate HasCapacity(site: Site, s: Mail, a: Attempt)
    requires a.message < |s.box.messages|
  {
    CapacityCheck(site, s, a.message, a.checkedAt).Allowed? && CapacityCheck(site, s, a.message, a.recheckedAt).Allowed?
  }

  /** With capacity one slot is reserved, for the message's tenant and stamped when it is written. */
  lemma DispatchReserves(site: Site, s: Mail, a: Attempt)
    requires Ready(s, a) && HasCapacity(site, s, a)
    ensures var i, s' := a.message, Dispatch(site, s, a);
            var m := s.box.messages[i];
            && OthersAsBefore(s.box, s'.box, i) && s'.registry == s.registry && s'.tenants == s.tenants
            && |s'.box.slots| == |s.box.slots| + 1 && s.box.slots <= s'.box.slots
            && var row := s'.box.slots[|s.box.slots|];
               && row.tenant == m.tenant && row.message == i && row.at == a.stamp && row.sender == m.domain
               && row.domain == if m.domain.Some? && m.domain.value in s.policies && s.policies[m.domain.value].enabled
                                then m.domain else None
  {
  }

  /** A pause or the domain gate keeps the message from the provider and fails it. */
  lemma GatesStopDispatch(site: Site, s: Mail, a: Attempt)
    requires Ready(s, a) && HasCapacity(site, s, a)
    requires var m := s.box.messages[a.message]; HeldBack(s.TenantOf(m.tenant).pause, m.kind) || a.gateBlocks
    ensures var i, s' := a.message, Dispatch(site, s, a);
            var m, m' := s.box.messages[i], s'.box.messages[i];
            && s'.box.handoffs == s.box.handoffs
            && m'.status == Failed && m'.retryCount == m.retryCount + 1 && m'.providerId == m.providerId
            && s'.box.events == s.box.events + [Event(i, FailedEvent, "", false)]
  {
  }

  /** Otherwise the provider is called once, unless an exception comes first, and the message ends as it answers. */
  lemma ProviderDecides(site: Site, s: Mail, a: Attempt)
    requires Ready(s, a) && HasCapacity(site, s, a)
    requires var m := s.box.messages[a.message]; !HeldBack(s.TenantOf(m.tenant).pause, m.kind) && !a.gateBlocks
    ensures var i, s' := a.message, Dispatch(site, s, a);
            var m, m' := s.box.messages[i], s'.box.messages[i];
            match a.provider
            case Accepts(id) =>
              && s'.box.handoffs == s.box.handoffs + [Handoff(i, true)]
              && m'.status == Sent && m'.providerId == id && m'.retryCount == m.retryCount
              && s'.box.events == s.box.events + [Event(i, SentEvent, "", false)]
            case Rejects =>
              && s'.box.handoffs == s.box.handoffs + [Handoff(i, false)]
              && m'.status == Failed && m'.providerId == m.providerId && m'.retryCount == m.retryCount + 1
              && s'.box.events == s.box.events + [Event(i, FailedEvent, "", false)]
            case _ =>
              && s'.box.handoffs == s.box.handoffs + (if a.provider.Raises? then [Handoff(i, false)] else [])
              && m'.status == Deferred && m'.providerId == m.providerId && m'.retryCount == m.retryCount + 1
              && m'.nextRetryAt == Some(a.finished + Backoff(m.retryCount + 1))
              && s'.box.events == s.box.events
  {
  }

  // ---------------------------------------------------------------------------------------------
  // Pauses over whole runs
  // ---------------------------------------------------------------------------------------------

  lemma BounceTouchesBox(site: Site, s: Mail, i: nat, w: Webhook)
    requires i < |s.box.messages|
    ensures OnBounce(site, s, i, w).box == BouncedBox(s.box, i, w)
  {
  }

  lemma ComplaintTouchesBox(site: Site, s: Mail, i: nat, w: Webhook)
    requires i < |s.box.messages|
    ensures OnComplaint(site, s, i, w).box == ComplainedBox(s.box, i, w)
  {
  }

  /** Who a message is from and to never changes. */
  predicate SameMail(box: Outbox, box': Outbox, i: nat) {
    && i < |box.messages| && i < |box'.messages|
    && var m, m' := box.messages[i], box'.messages[i];
       m'.tenant == m.tenant && m'.kind == m.kind && m'.to == m.to && m'.domain == m.domain
  }

  lemma HookKeepsMail(site: Site, s: Mail, i: nat, j: nat, w: Webhook)
    requires i < |s.box.messages| && j < |s.box.messages|
    ensures SameMail(s.box, OnHook(site, s, j, w).box, i) && OnHook(site, s, j, w).box.handoffs == s.box.handoffs
  {
    match w.kind
    case BouncedHook => BounceTouchesBox(site, s, j, w);
    case ComplainedHook => ComplaintTouchesBox(site, s, j, w);
    case _ =>
  }

  lemma DispatchKeepsMail(site: Site, s: Mail, a: Attempt, i: nat)
    requires i < |s.box.messages|
    ensures SameMail(s.box, Dispatch(site, s, a).box, i)
  {
    if Dispatchable(s, a) {
      var m := s.box.messages[a.message];
      var row := T.Reservation(SlotRequest(m, a.message), PolicyFor(s, m), a.stamp);
      HandOverKeepsMail(s.(box := s.box.(slots := s.box.slots + [row])), a, i);
    }
  }

  lemma HandOverKeepsMail(s: Mail, a: Attempt, i: nat)
    requires a.message < |s.box.messages| && i < |s.box.messages|
    ensures SameMail(s.box, HandOver(s, a), i)
  {
  }

  lemma MailStaysTheSame(site: Site, s: Mail, op: Op, i: nat)
    requires i < |s.box.messages|
    ensures SameMail(s.box, Apply(site, s, op).box, i)
  {
    match op
    case DispatchOp(attempt) => DispatchKeepsMail(site, s, attempt, i);
    case WebhookOp(webhook) =>
      if Target(s, webhook).Some? {
        HookKeepsMail(site, s, i, Target(s, webhook).value, webhook);
      }
    case RetryDueOp(now) => RequeuedAt(s.box.messages, now, RETRY_BATCH, i);
    case _ =>
  }

  /** While its tenant is paused for its type no operation hands a message to a provider. */
  lemma PausedStep(site: Site, s: Mail, op: Op, i: nat)
    requires i < |s.box.messages|
    requires var m := s.box.messages[i]; HeldBack(s.TenantOf(m.tenant).pause, m.kind)
    ensures L.CallsOf(Apply(site, s, op).box.handoffs, i) == L.CallsOf(s.box.handoffs, i)
  {
    match op
    case DispatchOp(attempt) =>
      if attempt.message != i {
        L.DispatchLeavesOthers(site, s, attempt, i);
      } else if Ready(s, attempt) {
        PausedDispatch(site, s, attempt);
      } else {
        DispatchSkips(site, s, attempt);
      }
    case WebhookOp(webhook) =>
      if Target(s, webhook).Some? {
        HookKeepsMail(site, s, i, Target(s, webhook).value, webhook);
      }
    case _ =>
  }

  lemma PausedDispatch(site: Site, s: Mail, a: Attempt)
    requires Ready(s, a)
    requires var m := s.box.messages[a.message]; HeldBack(s.TenantOf(m.tenant).pause, m.kind)
    ensures Dispatch(site, s, a).box.handoffs == s.box.handoffs
  {
    if HasCapacity(site, s, a) {
      GatesStopDispatch(site, s, a);
    } else {
      DispatchDefers(site, s, a);
    }
  }

  /** The tenant is paused for the type at every point of the run. */
  predicate HeldThroughout(site: Site, s: Mail, ops: seq<Op>, t: TenantId, kind: R.MessageType)
    decreases |ops|
  {
    HeldBack(s.TenantOf(t).pause, kind) && (ops != [] ==> HeldThroughout(site, Apply(site, s, ops[0]), ops[1..], t, kind))
  }

  /** No message of a tenant that stays paused for its type is handed to a provider, whatever happens. */
  lemma {:induction false} NothingIsSentWhilePaused(site: Site, s: Mail, ops: seq<Op>, i: nat)
    requires i < |s.box.messages|
    requires HeldThroughout(site, s, ops, s.box.messages[i].tenant, s.box.messages[i].kind)
    ensures L.CallsOf(Run(site, s, ops).box.handoffs, i) == L.CallsOf(s.box.handoffs, i)
    decreases |ops|
  {
    if ops != [] {
      PausedStep(site, s, ops[0], i);
      MailStaysTheSame(site, s, ops[0], i);
      NothingIsSentWhilePaused(site, Apply(site, s, ops[0]), ops[1..], i);
    }
  }

  /** No operator touches the tenant. */
  predicate LeftAlone(ops: seq<Op>, t: TenantId) {
    forall k :: 0 <= k < |ops| ==> !(ops[k].TenantOp? && ops[k].who == t)
  }

  /** Paused by hand, or for mail that every pause covers. */
  predicate HeldForGood(pause: R.Pause, kind: R.MessageType) {
    HeldBack(pause, kind) && (pause.source == Some(R.Manual) || kind == R.Marketing || kind == R.Lifecycle)
  }

  lemma HeldForGoodStep(site: Site, s: Mail, op: Op, t: TenantId, kind: R.MessageType)
    requires HeldForGood(s.TenantOf(t).pause, kind) && LeftAlone([op], t)
    ensures HeldForGood(Apply(site, s, op).TenantOf(t).pause, kind)
  {
    assert [op][0] == op;
    match op
    case WebhookOp(w) =>
      if Target(s, w).Some? {
        PauseAfterHook(site, s, Target(s, w).value, w, t);
      }
    case _ =>
  }

  /** A webhook leaves a tenant's pause as it is, or has it reviewed. */
  lemma PauseAfterHook(site: Site, s: Mail, i: nat, w: Webhook, t: TenantId)
    requires i < |s.box.messages|
    ensures var was, after := s.TenantOf(t).pause, OnHook(site, s, i, w).TenantOf(t).pause;
            after == was || exists desired :: after == R.AfterEvaluation(was, desired)
  {
  }

  /** Only an operator lifts such a pause: automation never does. */
  lemma {:induction false} HeldUntilOperatorActs(site: Site, s: Mail, ops: seq<Op>, t: TenantId, kind: R.MessageType)
    requires HeldForGood(s.TenantOf(t).pause, kind) && LeftAlone(ops, t)
    ensures HeldThroughout(site, s, ops, t, kind)
    decreases |ops|
  {
    if ops != [] {
      assert LeftAlone([ops[0]], t);
      HeldForGoodStep(site, s, ops[0], t, kind);
      HeldUntilOperatorActs(site, Apply(site, s, ops[0]), ops[1..], t, kind);
    }
  }

  // ---------------------------------------------------------------------------------------------
  // Operator actions and the retry sweep
  // ---------------------------------------------------------------------------------------------

  /** Retrying turns a failed or deferred message into a queued one without a retry time; cancelling ends a queued,
      rendered or deferred one; neither does anything else. */
  lemma ActionsOutcome(s: Mail, i: nat, now: Time)
    requires i < |s.box.messages|
    ensures var m, retried, cancelled := s.box.messages[i], Retry(s, i, now), Cancel(s, i, now);
            && (if m.status == Failed || m.status == Deferred
                then retried == s.(box := s.box.(messages := s.box.messages[i :=
                                     m.(status := Queued, nextRetryAt := None, updatedAt := now)]))
                else retried == s)
            && (if m.status == Queued || m.status == Rendered || m.status == Deferred
                then cancelled == s.(box := s.box.(messages := s.box.messages[i := m.(status := Cancelled, updatedAt := now)]))
                else cancelled == s)
  {
  }

  /** The sweep requeues a message exactly when it is deferred, its retry time has come, and fewer than a hundred newer
      messages are in the same position. */
  lemma SweepOutcome(s: Mail, i: nat, now: Time)
    requires i < |s.box.messages|
    ensures var m, s' := s.box.messages[i], RetryDueDeferred(s, now);
            var due := m.status == Deferred && m.nextRetryAt.Some? && m.nextRetryAt.value <= now;
            && s'.box.messages[i]
               == (if due && DueIn(s.box.messages[i + 1..], now) < 100 then m.(status := Queued, updatedAt := now) else m)
            && s' == s.(box := s.box.(messages := s'.box.messages)) && |s'.box.messages| == |s.box.messages|
  {
    RequeuedAt(s.box.messages, now, RETRY_BATCH, i);
  }

  // ---------------------------------------------------------------------------------------------
  // Webhooks
  // ---------------------------------------------------------------------------------------------

  /** A webhook is for the newest message with its stripped identifier, unless that message already has an event with
      the webhook's event identifier. */
  lemma TargetIs(s: Mail, w: Webhook, i: nat)
    ensures Target(s, w) == Some(i)
       <==> && Strip(w.messageId) != "" && i < |s.box.messages| && s.box.messages[i].providerId == Strip(w.messageId)
            && (forall j :: i < j < |s.box.messages| ==> s.box.messages[j].providerId != Strip(w.messageId))
            && (w.eventId == ""
                || forall e :: e in s.box.events && e.message == i ==> e.providerEventId != w.eventId)
  {
  }

  /** The status a webhook gives. */
  function StatusFor(was: Status, w: Webhook): Status {
    match w.kind
    case DeliveredHook => Delivered
    case BouncedHook => if w.bounceType == "hard" then Bounced else Deferred
    case ComplainedHook => Complained
    case FailedHook => if w.terminal then Failed else if was == Sending || was == Sent then Deferred else was
    case _ => was
  }

  /** And the kind of event it leaves. */
  function EventFor(w: Webhook): EventType {
    match w.kind
    case DeliveredHook => DeliveredEvent
    case OpenedHook => OpenedEvent
    case ClickedHook => ClickedEvent
    case BouncedHook => if w.bounceType == "hard" then BouncedEvent else DeferredEvent
    case ComplainedHook => ComplainedEvent
    case _ => if w.terminal then FailedEvent else DeferredEvent
  }

  /** The reported recipient, stripped; the message's own address if none, or nothing but blanks, is reported. */
  lemma HookAddressIs(m: Message, w: Webhook)
    ensures HookAddress(m, w) == if Strip(w.recipient) != "" then Strip(w.recipient)
                                 else if w.recipient == "" && Strip(m.to) != "" then Strip(m.to) else m.to
  {
    assert Strip("") == "";
  }

  lemma HookChangesBox(site: Site, s: Mail, i: nat, w: Webhook)
    requires i < |s.box.messages| && w.kind != UnknownHook
    requires w.eventId == "" || forall e :: e in s.box.events && e.message == i ==> e.providerEventId != w.eventId
    ensures var m, box := s.box.messages[i], OnHook(site, s, i, w).box;
            && OthersAsBefore(s.box, box, i) && box.slots == s.box.slots && box.handoffs == s.box.handoffs
            && box.messages[i].status == StatusFor(m.status, w)
            && box.messages[i] == m.(status := box.messages[i].status, updatedAt := box.messages[i].updatedAt)
            && box.events == s.box.events + [Event(i, EventFor(w), w.eventId, true)]
  {
    match w.kind
    case BouncedHook => BounceTouchesBox(site, s, i, w);
    case ComplainedHook => ComplaintTouchesBox(site, s, i, w);
    case _ =>
  }

  /** What a webhook does to the message it is for, and to no other. */
  lemma WebhookOutcome(site: Site, s: Mail, w: Webhook, i: nat)
    requires Target(s, w) == Some(i) && w.kind != UnknownHook
    ensures var m, box := s.box.messages[i], Ingest(site, s, w).box;
            && OthersAsBefore(s.box, box, i) && box.slots == s.box.slots && box.handoffs == s.box.handoffs
            && box.messages[i].status == StatusFor(m.status, w)
            && box.messages[i] == m.(status := box.messages[i].status, updatedAt := box.messages[i].updatedAt)
            && box.events == s.box.events + [Event(i, EventFor(w), w.eventId, true)]
  {
    TargetIs(s, w, i);
    HookChangesBox(site, s, i, w);
  }

  /** Bounces and complaints are put on record; nothing else is. */
  lemma WebhookRecords(site: Site, s: Mail, w: Webhook, i: nat)
    requires Target(s, w) == Some(i)
    ensures var m, box := s.box.messages[i], Ingest(site, s, w).box;
            && box.bounces == s.box.bounces
                 + (if w.kind != BouncedHook then []
                    else [Bounce(m.tenant, HookAddress(m, w), i, if w.bounceType == "" then "soft" else w.bounceType, w.reason)])
            && |box.complaints| == |s.box.complaints| + (if w.kind == ComplainedHook then 1 else 0)
            && s.box.complaints <= box.complaints
            && (w.kind == ComplainedHook ==>
                  var c := box.complaints[|s.box.complaints|];
                  var feedback := if w.reason == "" then "spam" else w.reason;
                  c.tenant == m.tenant && c.message == i && c.email == HookAddress(m, w)
                  && |c.feedback| <= 64 && c.feedback <= feedback && (|feedback| <= 64 ==> c.feedback == feedback))
  {
    match w.kind
    case BouncedHook => BounceTouchesBox(site, s, i, w);
    case ComplainedHook => ComplaintTouchesBox(site, s, i, w);
    case _ =>
  }

  /** A hard bounce closes both channels to the address, a complaint the marketing channel, with the delivery on file;
      no other webhook touches the list. */
  lemma WebhookSuppresses(site: Site, s: Mail, w: Webhook, i: nat)
    requires Target(s, w) == Some(i) && P.WellKept(s.registry)
    ensures var m, after := s.box.messages[i], Ingest(site, s, w).registry;
            var address := Lower(Strip(HookAddress(m, w)));
            var hard, complaint := w.kind == BouncedHook && w.bounceType == "hard", w.kind == ComplainedHook;
            var onFile := map["provider" := w.provider, "provider_message_id" := Strip(w.messageId), "webhook_event_id" := w.id];
            && ((!hard && !complaint) || address == "" ==> after == s.registry)
            && (hard && address != "" ==>
                  && P.OnlyEntry(after.suppressions, Some(m.tenant), address, HardBounce, true, true, onFile["reason" := w.reason])
                  && P.OthersStay(s.registry.suppressions, after.suppressions, Some(m.tenant), address, HardBounce))
            && (complaint && address != "" ==>
                  && P.OnlyEntry(after.suppressions, Some(m.tenant), address, SpamComplaint, true, false, onFile)
                  && P.OthersStay(s.registry.suppressions, after.suppressions, Some(m.tenant), address, SpamComplaint))
  {
    var m := s.box.messages[i];
    var onFile := map["provider" := w.provider, "provider_message_id" := Strip(w.messageId), "webhook_event_id" := w.id];
    var hardData := HookMetadata(w, "reason", w.reason);
    var spamData := HookMetadata(w, "feedback_type", Cut(OrElse(w.reason, "spam"), 256));
    assert hardData == onFile["reason" := w.reason];
    match w.kind
    case BouncedHook =>
      P.BounceRegistry(site, s, i, w);
      P.SuppressMeans(s.registry, Some(m.tenant), HookAddress(m, w), HardBounce, true, true, hardData);
    case ComplainedHook =>
      P.ComplaintRegistry(site, s, i, w);
      P.SuppressMeans(s.registry, Some(m.tenant), HookAddress(m, w), SpamComplaint, true, false, spamData);
      var address := Lower(Strip(HookAddress(m, w)));
      var after := Ingest(site, s, w).registry.suppressions;
      if address != "" {
        FewerKeys(after, Some(m.tenant), address, SpamComplaint, true, false, spamData, onFile);
      }
    case _ =>
  }

  lemma FewerKeys(rows: seq<Suppression>, tenant: Option<TenantId>, email: string, reason: Reason, marketing: bool,
                  transactional: bool, data: Metadata, fewer: Metadata)
    requires P.OnlyEntry(rows, tenant, email, reason, marketing, transactional, data)
    requires forall key :: key in fewer ==> key in data && data[key] == fewer[key]
    ensures P.OnlyEntry(rows, tenant, email, reason, marketing, transactional, fewer)
  {
    var k :| 0 <= k < |rows| && P.IsEntry(rows[k], tenant, email, reason, marketing, transactional, data)
      && forall j :: 0 <= j < |rows| && Matches(rows[j], tenant, email, reason) ==> j == k;
    assert P.IsEntry(rows[k], tenant, email, reason, marketing, transactional, fewer);
  }

  /** Hard bounces and complaints have the tenant's pause reviewed on the table as it then is; no other webhook, and
      no other tenant's pause, is concerned. */
  lemma WebhookReviews(site: Site, s: Mail, w: Webhook, i: nat)
    requires Target(s, w) == Some(i)
    ensures var t, s' := s.box.messages[i].tenant, Ingest(site, s, w);
            && (forall other :: other != t ==> s'.TenantOf(other) == s.TenantOf(other))
            && s'.TenantOf(t).rate == s.TenantOf(t).rate
            && if (w.kind == BouncedHook && w.bounceType == "hard") || w.kind == ComplainedHook
               then R.Reviewed(site.thresholds, site.metrics(s'.box.messages, t, w.now), s.TenantOf(t).pause, s'.TenantOf(t).pause)
               else s'.tenants == s.tenants
  {
    var t, s' := s.box.messages[i].tenant, Ingest(site, s, w);
    R.EvaluationReviews(site.thresholds, site.metrics(s'.box.messages, t, w.now), s.TenantOf(t).pause);
    match w.kind
    case BouncedHook =>
      if w.bounceType == "hard" {
        BounceReviews(site, s, i, w);
      }
    case ComplainedHook => ComplaintReviews(site, s, i, w);
    case _ =>
  }

  /** The tenant's pause after a review on the messages as they are. */
  ghost predicate PauseReviewed(site: Site, s: Mail, s': Mail, t: TenantId, now: Time) {
    && (forall other :: other != t ==> s'.TenantOf(other) == s.TenantOf(other))
    && s'.TenantOf(t).rate == s.TenantOf(t).rate
    && s'.TenantOf(t).pause
       == R.AfterEvaluation(s.TenantOf(t).pause, R.DesiredScope(site.thresholds, site.metrics(s'.box.messages, t, now)))
  }

  lemma BounceReviews(site: Site, s: Mail, i: nat, w: Webhook)
    requires i < |s.box.messages| && w.bounceType == "hard"
    ensures PauseReviewed(site, s, OnBounce(site, s, i, w), s.box.messages[i].tenant, w.now)
  {
  }

  lemma ComplaintReviews(site: Site, s: Mail, i: nat, w: Webhook)
    requires i < |s.box.messages|
    ensures PauseReviewed(site, s, OnComplaint(site, s, i, w), s.box.messages[i].tenant, w.now)
  {
  }
}
