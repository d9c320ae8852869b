/**
What every run keeps about a single message: every provider call is paid for by a slot, a message is accepted
again only after a webhook reopened it, and a message at rest that webhooks cannot name never moves.
 */
module MailLifecycle {
  import opened Options
  import opened Strings
  import opened MailModel
  import T = Throttling
  import R = SendingRisk
  import W = MailWebhooks

  // ---------------------------------------------------------------------------------------------
  // Counting per message
  // ---------------------------------------------------------------------------------------------

  function SlotsOf(slots: seq<T.Slot>, i: nat): nat {
    if slots == [] then 0 else SlotsOf(slots[..|slots| - 1], i) + if slots[|slots| - 1].message == i then 1 else 0
  }

  function CallsOf(calls: seq<Handoff>, i: nat): nat {
    if calls == [] then 0 else CallsOf(calls[..|calls| - 1], i) + if calls[|calls| - 1].message == i then 1 else 0
  }

  function AcceptedOf(calls: seq<Handoff>, i: nat): nat {
    if calls == [] then 0
    else AcceptedOf(calls[..|calls| - 1], i) + if calls[|calls| - 1] == Handoff(i, true) then 1 else 0
  }

  function SentEventsOf(events: seq<Event>, i: nat): nat {
    if events == [] then 0
    else
      var e := events[|events| - 1];
      SentEventsOf(events[..|events| - 1], i) + if e.message == i && e.kind == SentEvent then 1 else 0
  }

  /** A webhook reported a soft bounce or a failure, or a delay. */
  predicate Reopens(e: Event, i: nat) {
    e.message == i && e.webhook && (e.kind == DeferredEvent || e.kind == FailedEvent)
  }

  function ReopeningsOf(events: seq<Event>, i: nat): nat {
    if events == [] then 0
    else ReopeningsOf(events[..|events| - 1], i) + if Reopens(events[|events| - 1], i) then 1 else 0
  }

  lemma SlotSnoc(slots: seq<T.Slot>, slot: T.Slot, i: nat)
    ensures SlotsOf(slots + [slot], i) == SlotsOf(slots, i) + if slot.message == i then 1 else 0
  {
  }

  lemma CallSnoc(calls: seq<Handoff>, call: Handoff, i: nat)
    ensures CallsOf(calls + [call], i) == CallsOf(calls, i) + if call.message == i then 1 else 0
    ensures AcceptedOf(calls + [call], i) == AcceptedOf(calls, i) + if call == Handoff(i, true) then 1 else 0
  {
  }

  lemma EventSnoc(events: seq<Event>, e: Event, i: nat)
    ensures SentEventsOf(events + [e], i) == SentEventsOf(events, i) + if e.message == i && e.kind == SentEvent then 1 else 0
    ensures ReopeningsOf(events + [e], i) == ReopeningsOf(events, i) + if Reopens(e, i) then 1 else 0
  {
  }

  // ---------------------------------------------------------------------------------------------
  // The invariant
  // ---------------------------------------------------------------------------------------------

  /** Rows refer to messages that exist. */
  ghost predicate RowsRefer(box: Outbox) {
    && (forall k :: 0 <= k < |box.slots| ==> box.slots[k].message < |box.messages|)
    && (forall k :: 0 <= k < |box.handoffs| ==> box.handoffs[k].message < |box.messages|)
    && (forall k :: 0 <= k < |box.events| ==> box.events[k].message < |box.messages|)
  }

  predicate Open(status: Status) {
    status == Queued || status == Deferred || status == Failed
  }

  /** Provider calls are paid for by slots, SENT events are exactly the accepted calls, and an open message
      has been reopened by a webhook as often as it has been accepted. */
  predicate Metered(box: Outbox, i: nat)
    requires i < |box.messages|
  {
    && CallsOf(box.handoffs, i) <= SlotsOf(box.slots, i)
    && SentEventsOf(box.events, i) == AcceptedOf(box.handoffs, i)
    && AcceptedOf(box.handoffs, i) <= ReopeningsOf(box.events, i) + if Open(box.messages[i].status) then 0 else 1
  }

  ghost predicate Inv(box: Outbox) {
    RowsRefer(box) && forall i :: 0 <= i < |box.messages| ==> Metered(box, i)
  }

  lemma {:induction false} NoSlots(slots: seq<T.Slot>, i: nat)
    requires forall k :: 0 <= k < |slots| ==> slots[k].message != i
    ensures SlotsOf(slots, i) == 0
  {
    if slots != [] {
      NoSlots(slots[..|slots| - 1], i);
    }
  }

  lemma {:induction false} NoCalls(calls: seq<Handoff>, i: nat)
    requires forall k :: 0 <= k < |calls| ==> calls[k].message != i
    ensures CallsOf(calls, i) == 0 && AcceptedOf(calls, i) == 0
  {
    if calls != [] {
      NoCalls(calls[..|calls| - 1], i);
    }
  }

  lemma {:induction false} NoEvents(events: seq<Event>, i: nat)
    requires forall k :: 0 <= k < |events| ==> events[k].message != i
    ensures SentEventsOf(events, i) == 0 && ReopeningsOf(events, i) == 0
  {
    if events != [] {
      NoEvents(events[..|events| - 1], i);
    }
  }

  lemma NewMessageIsUnmetered(box: Outbox)
    requires RowsRefer(box)
    ensures var i := |box.messages|;
            && SlotsOf(box.slots, i) == 0 && CallsOf(box.handoffs, i) == 0 && AcceptedOf(box.handoffs, i) == 0
            && SentEventsOf(box.events, i) == 0 && ReopeningsOf(box.events, i) == 0
  {
    NoSlots(box.slots, |box.messages|);
    NoCalls(box.handoffs, |box.messages|);
    NoEvents(box.events, |box.messages|);
  }

  // ---------------------------------------------------------------------------------------------
  // The elementary changes of an outbox, and what each keeps
  // ---------------------------------------------------------------------------------------------

  /** A status change that does not open a closed message. */
  lemma SaveKeeps(box: Outbox, i: nat, m: Message)
    requires Inv(box) && i < |box.messages|
    requires Open(m.status) ==> Open(box.messages[i].status)
    ensures Inv(Save(box, i, m))
  {
    forall j | 0 <= j < |box.messages|
      ensures Metered(Save(box, i, m), j)
    {
      assert Metered(box, j);
    }
  }

  /** An event that is not a SENT event. */
  lemma EventKeeps(box: Outbox, e: Event)
    requires Inv(box) && e.message < |box.messages| && e.kind != SentEvent
    ensures Inv(box.(events := box.events + [e]))
  {
    forall j | 0 <= j < |box.messages|
      ensures Metered(box.(events := box.events + [e]), j)
    {
      assert Metered(box, j);
      EventSnoc(box.events, e, j);
    }
  }

  lemma LogKeeps(box: Outbox, i: nat, kind: EventType)
    requires Inv(box) && i < |box.messages| && kind != SentEvent
    ensures Inv(Log(box, i, kind))
  {
    EventKeeps(box, Event(i, kind, "", false));
  }

  lemma LogOnceKeeps(box: Outbox, i: nat, kind: EventType, eventId: string)
    requires Inv(box) && i < |box.messages| && kind != SentEvent
    ensures Inv(LogOnce(box, i, kind, eventId))
  {
    EventKeeps(box, Event(i, kind, eventId, true));
  }

  /** A webhook that reopens a message is recorded as doing so. */
  lemma ReopenKeeps(box: Outbox, i: nat, status: Status, now: Time, kind: EventType, eventId: string)
    requires Inv(box) && i < |box.messages| && (kind == DeferredEvent || kind == FailedEvent)
    requires eventId != "" ==> !Seen(box.events, i, eventId)
    ensures Inv(LogOnce(SetStatus(box, i, status, now), i, kind, eventId))
  {
    var e := Event(i, kind, eventId, true);
    var after := LogOnce(SetStatus(box, i, status, now), i, kind, eventId);
    assert after.events == box.events + [e];
    forall j | 0 <= j < |box.messages|
      ensures Metered(after, j)
    {
      assert Metered(box, j);
      EventSnoc(box.events, e, j);
    }
  }

  lemma SlotKeeps(box: Outbox, slot: T.Slot)
    requires Inv(box) && slot.message < |box.messages|
    ensures Inv(box.(slots := box.slots + [slot]))
  {
    forall j | 0 <= j < |box.messages|
      ensures Metered(box.(slots := box.slots + [slot]), j)
    {
      assert Metered(box, j);
      SlotSnoc(box.slots, slot, j);
    }
  }

  /** A refused or failed provider call, paid for by a spare slot. */
  lemma RefusedCallKeeps(box: Outbox, i: nat)
    requires Inv(box) && i < |box.messages|
    requires CallsOf(box.handoffs, i) < SlotsOf(box.slots, i)
    ensures Inv(box.(handoffs := box.handoffs + [Handoff(i, false)]))
  {
    forall j | 0 <= j < |box.messages|
      ensures Metered(box.(handoffs := box.handoffs + [Handoff(i, false)]), j)
    {
      assert Metered(box, j);
      CallSnoc(box.handoffs, Handoff(i, false), j);
    }
  }

  /** An accepted call closes an open message and writes its SENT event. */
  lemma AcceptedCallKeeps(box: Outbox, i: nat, m: Message)
    requires Inv(box) && i < |box.messages| && Open(box.messages[i].status) && m.status == Sent
    requires CallsOf(box.handoffs, i) < SlotsOf(box.slots, i)
    ensures Inv(Log(Save(box.(handoffs := box.handoffs + [Handoff(i, true)]), i, m), i, SentEvent))
  {
    var after := Log(Save(box.(handoffs := box.handoffs + [Handoff(i, true)]), i, m), i, SentEvent);
    forall j | 0 <= j < |box.messages|
      ensures Metered(after, j)
    {
      assert Metered(box, j);
      CallSnoc(box.handoffs, Handoff(i, true), j);
      EventSnoc(box.events, Event(i, SentEvent, "", false), j);
    }
  }

  lemma AppendKeeps(box: Outbox, m: Message)
    requires Inv(box)
    ensures Inv(box.(messages := box.messages + [m]))
  {
    NewMessageIsUnmetered(box);
    var after := box.(messages := box.messages + [m]);
    forall j | 0 <= j < |after.messages|
      ensures Metered(after, j)
    {
      if j < |box.messages| {
        assert Metered(box, j);
      }
    }
  }

  // ---------------------------------------------------------------------------------------------
  // The operations
  // ---------------------------------------------------------------------------------------------

  lemma CreateKeeps(s: Mail, r: Request)
    requires Inv(s.box)
    ensures Inv(Create(s, r).box)
  {
    if Accepted(s, r) {
      var i := |s.box.messages|;
      var m := Create(s, r).box.messages[i];
      var box := s.box.(messages := s.box.messages + [m]);
      AppendKeeps(s.box, m);
      LogKeeps(box, i, SuppressedEvent);
      LogKeeps(box, i, FailedEvent);
      LogKeeps(box, i, RenderedEvent);
      LogKeeps(Log(box, i, RenderedEvent), i, QueuedEvent);
    }
  }

  lemma DeferKeeps(box: Outbox, i: nat, until: Time, now: Time)
    requires Inv(box) && i < |box.messages| && Open(box.messages[i].status)
    ensures Inv(Defer(box, i, until, now))
  {
    var m := box.messages[i].(status := Deferred, nextRetryAt := Some(until), updatedAt := now);
    SaveKeeps(box, i, m);
    LogKeeps(Save(box, i, m), i, DeferredEvent);
  }

  lemma FailKeeps(box: Outbox, i: nat, now: Time)
    requires Inv(box) && i < |box.messages| && Open(box.messages[i].status)
    ensures Inv(Fail(box, i, now))
  {
    var m := box.messages[i].(status := Failed, retryCount := box.messages[i].retryCount + 1, updatedAt := now);
    SaveKeeps(box, i, m);
    LogKeeps(Save(box, i, m), i, FailedEvent);
  }

  lemma HandOverKeeps(s: Mail, a: Attempt)
    requires Inv(s.box) && a.message < |s.box.messages| && Open(s.box.messages[a.message].status)
    requires CallsOf(s.box.handoffs, a.message) < SlotsOf(s.box.slots, a.message)
    ensures Inv(HandOver(s, a))
  {
    var i, m := a.message, s.box.messages[a.message];
    if R.Blocked(s.TenantOf(m.tenant).pause, m.kind) || a.gateBlocks {
      FailKeeps(s.box, i, a.finished);
    } else if a.provider.Accepts? {
      AcceptedCallKeeps(s.box, i, m.(status := Sent, providerId := a.provider.id, updatedAt := a.finished));
    } else if a.provider.Breaks? {
      SaveKeeps(s.box, i, BackOff(s.box, i, a.finished).messages[i]);
    } else {
      var called := s.box.(handoffs := s.box.handoffs + [Handoff(i, false)]);
      RefusedCallKeeps(s.box, i);
      FailKeeps(called, i, a.finished);
      SaveKeeps(called, i, BackOff(called, i, a.finished).messages[i]);
    }
  }

  lemma DispatchKeeps(site: Site, s: Mail, a: Attempt)
    requires Inv(s.box)
    ensures Inv(Dispatch(site, s, a).box)
  {
    if Dispatchable(s, a) {
      var i, m := a.message, s.box.messages[a.message];
      if CapacityCheck(site, s, i, a.checkedAt).Refused? {
        DeferKeeps(s.box, i, CapacityCheck(site, s, i, a.checkedAt).reopensAt, a.finished);
      } else if CapacityCheck(site, s, i, a.recheckedAt).Refused? {
        DeferKeeps(s.box, i, T.NextSendTime(site.calendar(m.tenant), s.box.slots, SlotRequest(m, i), Limit(site, s, m),
                                            PolicyFor(s, m), a.finished), a.finished);
      } else {
        var row := T.Reservation(SlotRequest(m, i), PolicyFor(s, m), a.stamp);
        SlotKeeps(s.box, row);
        SlotSnoc(s.box.slots, row, i);
        assert Metered(s.box, i);
        HandOverKeeps(s.(box := s.box.(slots := s.box.slots + [row])), a);
      }
    }
  }

  lemma RetryKeeps(s: Mail, i: nat, now: Time)
    requires Inv(s.box)
    ensures Inv(Retry(s, i, now).box)
  {
    if Retry(s, i, now) != s {
      SaveKeeps(s.box, i, s.box.messages[i].(status := Queued, nextRetryAt := None, updatedAt := now));
    }
  }

  lemma CancelKeeps(s: Mail, i: nat, now: Time)
    requires Inv(s.box)
    ensures Inv(Cancel(s, i, now).box)
  {
    if Cancel(s, i, now) != s {
      SaveKeeps(s.box, i, s.box.messages[i].(status := Cancelled, updatedAt := now));
    }
  }

  lemma RetryDueKeeps(s: Mail, now: Time)
    requires Inv(s.box)
    ensures Inv(RetryDueDeferred(s, now).box)
  {
    var after := RetryDueDeferred(s, now).box;
    forall j | 0 <= j < |s.box.messages|
      ensures Metered(after, j)
    {
      assert Metered(s.box, j);
      RequeuedAt(s.box.messages, now, RETRY_BATCH, j);
    }
  }

  lemma IngestKeeps(site: Site, s: Mail, w: Webhook)
    requires Inv(s.box)
    ensures Inv(Ingest(site, s, w).box)
  {
    var target := Target(s, w);
    if target.Some? {
      var i := target.value;
      match w.kind
      case DeliveredHook => CloseKeeps(s.box, i, Delivered, w.now, DeliveredEvent, w.eventId);
      case OpenedHook => LogOnceKeeps(s.box, i, OpenedEvent, w.eventId);
      case ClickedHook => LogOnceKeeps(s.box, i, ClickedEvent, w.eventId);
      case BouncedHook => BounceKeeps(site, s, i, w);
      case ComplainedHook => ComplaintKeeps(site, s, i, w);
      case FailedHook => FailureKeeps(s, i, w);
      case UnknownHook =>
    }
  }

  lemma CloseKeeps(box: Outbox, i: nat, status: Status, now: Time, kind: EventType, eventId: string)
    requires Inv(box) && i < |box.messages| && !Open(status) && kind != SentEvent
    ensures Inv(LogOnce(SetStatus(box, i, status, now), i, kind, eventId))
  {
    SaveKeeps(box, i, box.messages[i].(status := status, updatedAt := now));
    LogOnceKeeps(SetStatus(box, i, status, now), i, kind, eventId);
  }

  /** Bounce and complaint records are beside the invariant. */
  lemma RecordsAreBeside(box: Outbox, box': Outbox)
    requires Inv(box)
    requires box'.messages == box.messages && box'.events == box.events && box'.slots == box.slots && box'.handoffs == box.handoffs
    ensures Inv(box')
  {
    forall j | 0 <= j < |box.messages|
      ensures Metered(box', j)
    {
      assert Metered(box, j);
    }
  }

  lemma BounceKeeps(site: Site, s: Mail, i: nat, w: Webhook)
    requires Inv(s.box) && i < |s.box.messages|
    requires w.eventId != "" ==> !Seen(s.box.events, i, w.eventId)
    ensures Inv(OnBounce(site, s, i, w).box)
  {
    var m := s.box.messages[i];
    var box := s.box.(bounces := s.box.bounces + [Bounce(m.tenant, HookAddress(m, w), i, OrElse(w.bounceType, "soft"), w.reason)]);
    RecordsAreBeside(s.box, box);
    CloseKeeps(box, i, Bounced, w.now, BouncedEvent, w.eventId);
    ReopenKeeps(box, i, Deferred, w.now, DeferredEvent, w.eventId);
  }

  lemma ComplaintKeeps(site: Site, s: Mail, i: nat, w: Webhook)
    requires Inv(s.box) && i < |s.box.messages|
    ensures Inv(OnComplaint(site, s, i, w).box)
  {
    CloseKeeps(s.box, i, Complained, w.now, ComplainedEvent, w.eventId);
    RecordsAreBeside(LogOnce(SetStatus(s.box, i, Complained, w.now), i, ComplainedEvent, w.eventId), OnComplaint(site, s, i, w).box);
  }

  lemma FailureKeeps(s: Mail, i: nat, w: Webhook)
    requires Inv(s.box) && i < |s.box.messages|
    requires w.eventId != "" ==> !Seen(s.box.events, i, w.eventId)
    ensures Inv(OnFailure(s, i, w).box)
  {
    ReopenKeeps(s.box, i, Failed, w.now, FailedEvent, w.eventId);
    ReopenKeeps(s.box, i, Deferred, w.now, DeferredEvent, w.eventId);
    LogOnceKeeps(s.box, i, DeferredEvent, w.eventId);
  }

  lemma ApplyKeeps(site: Site, s: Mail, op: Op)
    requires Inv(s.box)
    ensures Inv(Apply(site, s, op).box)
  {
    match op
    case CreateOp(request) => CreateKeeps(s, request);
    case DispatchOp(attempt) => DispatchKeeps(site, s, attempt);
    case RetryOp(i, now) => RetryKeeps(s, i, now);
    case CancelOp(i, now) => CancelKeeps(s, i, now);
    case RetryDueOp(now) => RetryDueKeeps(s, now);
    case WebhookOp(webhook) => IngestKeeps(site, s, webhook);
    case _ =>
  }

  lemma {:induction false} RunKeeps(site: Site, s: Mail, ops: seq<Op>)
    requires Inv(s.box)
    ensures Inv(Run(site, s, ops).box)
    decreases |ops|
  {
    if ops != [] {
      ApplyKeeps(site, s, ops[0]);
      RunKeeps(site, Apply(site, s, ops[0]), ops[1..]);
    }
  }

  // ---------------------------------------------------------------------------------------------
  // Messages that never move again
  // ---------------------------------------------------------------------------------------------

  /** Webhooks name messages by a stripped, non-blank identifier. */
  predicate Nameable(id: string) {
    id != "" && Strip(id) == id
  }

  /** Out of reach of dispatch, retry, cancellation and the retry sweep. */
  predicate AtRest(status: Status) {
    !Open(status) && status != Rendered
  }

  /** Out of reach of webhooks, too, as is every message at rest that no provider has accepted. */
  predicate Frozen(m: Message) {
    AtRest(m.status) && !Nameable(m.providerId)
  }

  /** The message's row and its provider calls are as before. */
  predicate Untouched(box: Outbox, box': Outbox, i: nat)
    requires i < |box.messages|
  {
    && i < |box'.messages| && box'.messages[i] == box.messages[i]
    && CallsOf(box'.handoffs, i) == CallsOf(box.handoffs, i)
    && AcceptedOf(box'.handoffs, i) == AcceptedOf(box.handoffs, i)
  }

  lemma HandOverLeavesOthers(s: Mail, a: Attempt, i: nat)
    requires i < |s.box.messages| && a.message < |s.box.messages| && a.message != i
    ensures Untouched(s.box, HandOver(s, a), i)
  {
  }

  lemma DispatchLeavesOthers(site: Site, s: Mail, a: Attempt, i: nat)
    requires i < |s.box.messages| && (a.message != i || !Open(s.box.messages[i].status))
    ensures Untouched(s.box, Dispatch(site, s, a).box, i)
  {
    if Dispatchable(s, a) {
      var m := s.box.messages[a.message];
      var row := T.Reservation(SlotRequest(m, a.message), PolicyFor(s, m), a.stamp);
      HandOverLeavesOthers(s.(box := s.box.(slots := s.box.slots + [row])), a, i);
    }
  }

  lemma IngestLeavesOthers(site: Site, s: Mail, w: Webhook, i: nat)
    requires i < |s.box.messages| && Target(s, w) != Some(i)
    ensures Untouched(s.box, Ingest(site, s, w).box, i)
  {
    W.IngestMarks(site, s, w);
  }

  lemma {:induction false} StripTwice(s: string)
    ensures Strip(Strip(s)) == Strip(s)
    decreases |s|
  {
    if s != "" && Space(s[0]) {
      StripTwice(s[1..]);
    } else if s != "" && Space(s[|s| - 1]) {
      StripTwice(s[..|s| - 1]);
    }
  }

  /** Only a webhook that names it moves a message at rest. */
  lemma RestingStep(site: Site, s: Mail, op: Op, i: nat)
    requires i < |s.box.messages| && AtRest(s.box.messages[i].status)
    requires op.WebhookOp? ==> Target(s, op.webhook) != Some(i)
    ensures Untouched(s.box, Apply(site, s, op).box, i)
  {
    match op
    case DispatchOp(attempt) => DispatchLeavesOthers(site, s, attempt, i);
    case WebhookOp(webhook) => IngestLeavesOthers(site, s, webhook, i);
    case RetryDueOp(now) => RequeuedAt(s.box.messages, now, RETRY_BATCH, i);
    case _ =>
  }

  lemma FrozenStep(site: Site, s: Mail, op: Op, i: nat)
    requires i < |s.box.messages| && Frozen(s.box.messages[i])
    ensures Untouched(s.box, Apply(site, s, op).box, i)
  {
    if op.WebhookOp? {
      StripTwice(op.webhook.messageId);
    }
    RestingStep(site, s, op, i);
  }

  lemma {:induction false} FrozenForever(site: Site, s: Mail, ops: seq<Op>, i: nat)
    requires i < |s.box.messages| && Frozen(s.box.messages[i])
    ensures Untouched(s.box, Run(site, s, ops).box, i)
    decreases |ops|
  {
    if ops != [] {
      FrozenStep(site, s, ops[0], i);
      FrozenForever(site, Apply(site, s, ops[0]), ops[1..], i);
    }
  }

  predicate NoWebhooks(ops: seq<Op>) {
    forall k :: 0 <= k < |ops| ==> !ops[k].WebhookOp?
  }

  lemma {:induction false} RestsWithoutWebhooks(site: Site, s: Mail, ops: seq<Op>, i: nat)
    requires i < |s.box.messages| && AtRest(s.box.messages[i].status) && NoWebhooks(ops)
    ensures Untouched(s.box, Run(site, s, ops).box, i)
    decreases |ops|
  {
    if ops != [] {
      RestingStep(site, s, ops[0], i);
      RestsWithoutWebhooks(site, Apply(site, s, ops[0]), ops[1..], i);
    }
  }

  // ---------------------------------------------------------------------------------------------
  // Main results
  // ---------------------------------------------------------------------------------------------

  /** In every run from an empty database, a message's provider calls are at most its slots, its SENT events
      are exactly its accepted calls, and it is accepted at most once more than webhooks reopened it. */
  lemma EveryHandoffIsMetered(site: Site, ops: seq<Op>, i: nat)
    requires i < |Run(site, EMPTY, ops).box.messages|
    ensures var box := Run(site, EMPTY, ops).box;
            && CallsOf(box.handoffs, i) <= SlotsOf(box.slots, i)
            && SentEventsOf(box.events, i) == AcceptedOf(box.handoffs, i)
            && AcceptedOf(box.handoffs, i) <= 1 + ReopeningsOf(box.events, i)
  {
    RunKeeps(site, EMPTY, ops);
    assert Metered(Run(site, EMPTY, ops).box, i);
  }

  /** A message created SUPPRESSED is never handed to a provider and never changes, whatever follows. */
  lemma SuppressedIsFinal(site: Site, before: seq<Op>, r: Request, after: seq<Op>)
    requires var s := Run(site, EMPTY, before);
             Accepted(s, r) && ShouldSuppress(s.registry, r.tenant, r.to, r.kind)
    ensures var s := Run(site, EMPTY, before);
            var i := |s.box.messages|;
            var end := Run(site, Create(s, r), after).box;
            && i < |end.messages| && end.messages[i] == Create(s, r).box.messages[i] && end.messages[i].status == Suppressed
            && CallsOf(end.handoffs, i) == 0
  {
    var s := Run(site, EMPTY, before);
    RunKeeps(site, EMPTY, before);
    NewMessageIsUnmetered(s.box);
    FrozenForever(site, Create(s, r), after, |s.box.messages|);
  }
}
