/**
The life of an outbound message: creation with suppression, dispatch, retry, cancellation, provider
webhooks, and the suppression list they maintain, each operation as a function on the whole database.

Every task, action and webhook is one atomic operation: the code takes no lock on the message row, so
this atomicity is an assumption.
 */
module MailModel {
  import opened Options
  import opened Strings
  import T = Throttling
  import R = SendingRisk

  type Time = T.Time
  type TenantId = T.TenantId

  datatype Status =
    | Draft | Queued | Rendered | Sending | Sent | Deferred | Delivered | Bounced | Complained | Failed | Suppressed | Cancelled

  /** `providerId` is blank until a provider has accepted the message. */
  datatype Message = Message(tenant: TenantId, kind: R.MessageType, to: string, domain: Option<T.DomainId>, status: Status,
                             providerId: string, retryCount: nat, nextRetryAt: Option<Time>, sendAfter: Option<Time>,
                             updatedAt: Time)

  datatype EventType =
    | QueuedEvent | RenderedEvent | SentEvent | DeferredEvent | DeliveredEvent | BouncedEvent | ComplainedEvent
    | FailedEvent | SuppressedEvent | OpenedEvent | ClickedEvent

  /** `providerEventId` is the payload key of that name; `webhook` tells whether a webhook wrote the row. */
  datatype Event = Event(message: nat, kind: EventType, providerEventId: string, webhook: bool)

  /** One call of the provider's send API; not a row, but what the system does to the outside. */
  datatype Handoff = Handoff(message: nat, accepted: bool)

  datatype Bounce = Bounce(tenant: TenantId, email: string, message: nat, kind: string, reason: string)
  datatype Complaint = Complaint(tenant: TenantId, email: string, message: nat, feedback: string)

  type Metadata = map<string, string>

  datatype Reason = HardBounce | SpamComplaint | Manual | Unsubscribe

  /** `tenant` is None for a global row. */
  datatype Suppression = Suppression(id: nat, tenant: Option<TenantId>, email: string, reason: Reason, marketing: bool,
                                     transactional: bool, metadata: Metadata)

  datatype Removal = Removal(suppressionId: nat, email: string, tenant: Option<TenantId>, reason: Reason, metadata: Metadata)

  /** Rows are listed oldest first, so a message's number is its index. */
  datatype Outbox = Outbox(messages: seq<Message>, events: seq<Event>, slots: seq<T.Slot>, handoffs: seq<Handoff>,
                           bounces: seq<Bounce>, complaints: seq<Complaint>)

  datatype Registry = Registry(suppressions: seq<Suppression>, removals: seq<Removal>,
                               unsubscribes: set<(TenantId, string)>, nextId: nat)

  datatype Tenant = Tenant(rate: int, pause: R.Pause)

  datatype Mail = Mail(box: Outbox, registry: Registry, tenants: map<TenantId, Tenant>, policies: map<T.DomainId, T.Policy>)
  {
    function TenantOf(t: TenantId): Tenant {
      if t in tenants then tenants[t] else Tenant(0, R.NOT_PAUSED)
    }
  }

  const EMPTY := Mail(Outbox([], [], [], [], [], []), Registry([], [], {}, 0), map[], map[])

  /** Fixed surroundings; how risk metrics are computed from the message table is left open. */
  datatype Site = Site(calendar: TenantId -> T.Calendar, floor: int, thresholds: R.Thresholds,
                       metrics: (seq<Message>, TenantId, Time) -> R.Metrics)

  // ---------------------------------------------------------------------------------------------
  // Small steps
  // ---------------------------------------------------------------------------------------------

  function Save(box: Outbox, i: nat, m: Message): Outbox
    requires i < |box.messages|
  {
    box.(messages := box.messages[i := m])
  }

  function Log(box: Outbox, i: nat, kind: EventType): Outbox {
    box.(events := box.events + [Event(i, kind, "", false)])
  }

  /** `email__iexact` */
  predicate SameAddress(a: string, b: string) {
    Lower(a) == Lower(b)
  }

  // ---------------------------------------------------------------------------------------------
  // Suppression lookups
  // ---------------------------------------------------------------------------------------------

  predicate GloballySuppressed(registry: Registry, email: string) {
    exists row :: row in registry.suppressions && row.tenant == None && SameAddress(row.email, email) && row.marketing
  }

  predicate TenantSuppressed(registry: Registry, tenant: TenantId, email: string, marketing: bool) {
    exists row :: row in registry.suppressions && SameAddress(row.email, email)
                  && (row.tenant == Some(tenant) || row.tenant == None)
                  && if marketing then row.marketing else row.transactional
  }

  predicate Unsubscribed(registry: Registry, tenant: TenantId, email: string) {
    exists u :: u in registry.unsubscribes && u.0 == tenant && SameAddress(u.1, email)
  }

  predicate ShouldSuppress(registry: Registry, tenant: TenantId, to: string, kind: R.MessageType) {
    || GloballySuppressed(registry, to)
    || (if kind == R.Marketing || kind == R.Lifecycle
        then Unsubscribed(registry, tenant, to) || TenantSuppressed(registry, tenant, to, true)
        else TenantSuppressed(registry, tenant, to, false))
  }

  // ---------------------------------------------------------------------------------------------
  // Creation
  // ---------------------------------------------------------------------------------------------

  /** A request to create a message.  `refused` stands for a suspended account or tenant or a used-up
      quota, `approved` for a template with an approved version, `renders` for a body that renders;
      a raw message is approved and renders. */
  datatype Request = Request(tenant: TenantId, kind: R.MessageType, to: string, domain: Option<T.DomainId>,
                             scheduledFor: Option<Time>, refused: bool, bypassPause: bool, approved: bool, renders: bool,
                             now: Time)

  predicate Accepted(s: Mail, r: Request) {
    !r.refused && (r.bypassPause || !R.Blocked(s.TenantOf(r.tenant).pause, r.kind)) && r.approved
  }

  /** A refused request raises and leaves the database as it was. */
  function Create(s: Mail, r: Request): Mail {
    if !Accepted(s, r) then s
    else
      var i := |s.box.messages|;
      var suppressed := ShouldSuppress(s.registry, r.tenant, r.to, r.kind);
      var status := if suppressed then Suppressed else if r.renders then Queued else Failed;
      var sendAfter := if status == Queued then Some(if r.scheduledFor.Some? then r.scheduledFor.value else r.now) else None;
      var m := Message(r.tenant, r.kind, r.to, r.domain, status, "", 0, None, sendAfter, r.now);
      var box := s.box.(messages := s.box.messages + [m]);
      s.(box := if suppressed then Log(box, i, SuppressedEvent)
                else if r.renders then Log(Log(box, i, RenderedEvent), i, QueuedEvent)
                else Log(box, i, FailedEvent))
  }

  // ---------------------------------------------------------------------------------------------
  // Dispatch
  // ---------------------------------------------------------------------------------------------

  /** What happens to the provider call; `Breaks` is an exception before the call, `Raises` one from it. */
  datatype Provider = Accepts(id: string) | Rejects | Raises | Breaks

  /** One dispatch task with its clock readings and the verdict of the domain-verification gate. */
  datatype Attempt = Attempt(message: nat, started: Time, checkedAt: Time, recheckedAt: Time, stamp: Time, finished: Time,
                             gateBlocks: bool, provider: Provider)

  function Power2(n: nat): nat {
    if n == 0 then 1 else 2 * Power2(n - 1)
  }

  /** Exponential, in seconds, capped. */
  function Backoff(retries: nat): Time {
    var delay := Power2(if retries < 8 then retries else 8);
    (if delay < 300 then delay else 300) * T.ONE_SECOND
  }

  function SlotRequest(m: Message, i: nat): T.Request {
    T.Request(m.tenant, m.domain, i)
  }

  function PolicyFor(s: Mail, m: Message): Option<T.Policy> {
    if m.domain.Some? && m.domain.value in s.policies then Some(s.policies[m.domain.value]) else None
  }

  function Limit(site: Site, s: Mail, m: Message): int {
    T.EffectivePerMinute(s.TenantOf(m.tenant).rate, site.floor)
  }

  function CapacityCheck(site: Site, s: Mail, i: nat, now: Time): T.Verdict
    requires i < |s.box.messages|
  {
    var m := s.box.messages[i];
    T.Check(site.calendar(m.tenant), s.box.slots, SlotRequest(m, i), Limit(site, s, m), PolicyFor(s, m), now)
  }

  function Defer(box: Outbox, i: nat, until: Time, now: Time): Outbox
    requires i < |box.messages|
  {
    Log(Save(box, i, box.messages[i].(status := Deferred, nextRetryAt := Some(until), updatedAt := now)), i, DeferredEvent)
  }

  /** A failure of the dispatch service proper: one more retry counted, FAILED, one event. */
  function Fail(box: Outbox, i: nat, now: Time): Outbox
    requires i < |box.messages|
  {
    var m := box.messages[i];
    Log(Save(box, i, m.(status := Failed, retryCount := m.retryCount + 1, updatedAt := now)), i, FailedEvent)
  }

  /** The task's own handler of an exception: back off and come back. */
  function BackOff(box: Outbox, i: nat, now: Time): Outbox
    requires i < |box.messages|
  {
    var m := box.messages[i];
    var retries := m.retryCount + 1;
    Save(box, i, m.(status := Deferred, retryCount := retries, nextRetryAt := Some(now + Backoff(retries)), updatedAt := now))
  }

  /** The provider-facing half, after capacity has been reserved. */
  function HandOver(s: Mail, a: Attempt): Outbox
    requires a.message < |s.box.messages|
  {
    var i, m := a.message, s.box.messages[a.message];
    if R.Blocked(s.TenantOf(m.tenant).pause, m.kind) || a.gateBlocks then Fail(s.box, i, a.finished)
    else
      match a.provider
      case Breaks => BackOff(s.box, i, a.finished)
      case Raises => BackOff(s.box.(handoffs := s.box.handoffs + [Handoff(i, false)]), i, a.finished)
      case Rejects => Fail(s.box.(handoffs := s.box.handoffs + [Handoff(i, false)]), i, a.finished)
      case Accepts(id) =>
        var called := s.box.(handoffs := s.box.handoffs + [Handoff(i, true)]);
        Log(Save(called, i, m.(status := Sent, providerId := id, updatedAt := a.finished)), i, SentEvent)
  }

  predicate Dispatchable(s: Mail, a: Attempt) {
    && a.message < |s.box.messages|
    && s.box.messages[a.message].status in {Queued, Deferred}
    && !(s.box.messages[a.message].sendAfter.Some? && s.box.messages[a.message].sendAfter.value > a.started)
  }

  function Dispatch(site: Site, s: Mail, a: Attempt): Mail {
    if !Dispatchable(s, a) then s
    else
      var i, m := a.message, s.box.messages[a.message];
      var verdict := CapacityCheck(site, s, i, a.checkedAt);
      if verdict.Refused? then s.(box := Defer(s.box, i, verdict.reopensAt, a.finished))
      else if CapacityCheck(site, s, i, a.recheckedAt).Refused? then
        var until := T.NextSendTime(site.calendar(m.tenant), s.box.slots, SlotRequest(m, i), Limit(site, s, m), PolicyFor(s, m),
                                    a.finished);
        s.(box := Defer(s.box, i, until, a.finished))
      else
        var row := T.Reservation(SlotRequest(m, i), PolicyFor(s, m), a.stamp);
        s.(box := HandOver(s.(box := s.box.(slots := s.box.slots + [row])), a))
  }

  // ---------------------------------------------------------------------------------------------
  // Operator actions and the retry sweep
  // ---------------------------------------------------------------------------------------------

  function Retry(s: Mail, i: nat, now: Time): Mail {
    if i < |s.box.messages| && s.box.messages[i].status in {Failed, Deferred}
    then s.(box := Save(s.box, i, s.box.messages[i].(status := Queued, nextRetryAt := None, updatedAt := now)))
    else s
  }

  function Cancel(s: Mail, i: nat, now: Time): Mail {
    if i < |s.box.messages| && s.box.messages[i].status in {Queued, Rendered, Deferred}
    then s.(box := Save(s.box, i, s.box.messages[i].(status := Cancelled, updatedAt := now)))
    else s
  }

  predicate RetryDue(m: Message, now: Time) {
    m.status == Deferred && m.nextRetryAt.Some? && m.nextRetryAt.value <= now
  }

  /** Requeues at most `budget` due messages, newest first. */
  function Requeued(messages: seq<Message>, now: Time, budget: nat): (r: seq<Message>)
    ensures |r| == |messages|
  {
    if messages == [] then []
    else
      var rest, last := messages[..|messages| - 1], messages[|messages| - 1];
      if RetryDue(last, now) && budget > 0
      then Requeued(rest, now, budget - 1) + [last.(status := Queued, updatedAt := now)]
      else Requeued(rest, now, budget) + [last]
  }

  function DueIn(messages: seq<Message>, now: Time): nat {
    if messages == [] then 0
    else DueIn(messages[..|messages| - 1], now) + if RetryDue(messages[|messages| - 1], now) then 1 else 0
  }

  /** A message is requeued exactly when it is due and fewer newer messages than the budget are due, too;
      nothing else of it changes. */
  lemma {:induction false} RequeuedAt(messages: seq<Message>, now: Time, budget: nat, i: nat)
    requires i < |messages|
    ensures Requeued(messages, now, budget)[i]
         == if RetryDue(messages[i], now) && DueIn(messages[i + 1..], now) < budget
            then messages[i].(status := Queued, updatedAt := now) else messages[i]
  {
    var rest, last := messages[..|messages| - 1], messages[|messages| - 1];
    if i < |messages| - 1 {
      RequeuedAt(rest, now, if RetryDue(last, now) && budget > 0 then budget - 1 else budget, i);
      assert messages[i + 1..][..|rest| - i - 1] == rest[i + 1..];
    }
  }

  const RETRY_BATCH := 100

  function RetryDueDeferred(s: Mail, now: Time): Mail {
    s.(box := s.box.(messages := Requeued(s.box.messages, now, RETRY_BATCH)))
  }

  // ---------------------------------------------------------------------------------------------
  // Webhooks
  // ---------------------------------------------------------------------------------------------

  datatype WebhookKind = DeliveredHook | OpenedHook | ClickedHook | BouncedHook | ComplainedHook | FailedHook | UnknownHook

  /** A normalised webhook; `id` names the stored `ProviderWebhookEvent`, fresh for every delivery. */
  datatype Webhook = Webhook(id: string, provider: string, messageId: string, eventId: string, kind: WebhookKind,
                             recipient: string, bounceType: string, reason: string, terminal: bool, now: Time)

  /** `filter(provider_message_id=mid).first()`: the newest message with that identifier. */
  function Lookup(messages: seq<Message>, mid: string): (r: Option<nat>)
    ensures r.Some? ==> r.value < |messages| && messages[r.value].providerId == mid
    ensures forall j :: 0 <= j < |messages| && messages[j].providerId == mid ==> r.Some? && j <= r.value
  {
    if messages == [] then None
    else if messages[|messages| - 1].providerId == mid then Some(|messages| - 1)
    else Lookup(messages[..|messages| - 1], mid)
  }

  predicate Seen(events: seq<Event>, i: nat, eventId: string) {
    exists e :: e in events && e.message == i && e.providerEventId == eventId
  }

  predicate SeenAs(events: seq<Event>, i: nat, kind: EventType, eventId: string) {
    exists e :: e in events && e.message == i && e.kind == kind && e.providerEventId == eventId
  }

  /** `_create_message_event_idempotent` */
  function LogOnce(box: Outbox, i: nat, kind: EventType, eventId: string): Outbox {
    if eventId != "" && SeenAs(box.events, i, kind, eventId) then box
    else box.(events := box.events + [Event(i, kind, eventId, true)])
  }

  function SetStatus(box: Outbox, i: nat, status: Status, now: Time): Outbox
    requires i < |box.messages|
  {
    Save(box, i, box.messages[i].(status := status, updatedAt := now))
  }

  /** The newest row of a tenant, address and reason. */
  function FindRow(rows: seq<Suppression>, tenant: Option<TenantId>, email: string, reason: Reason): (r: Option<nat>)
    ensures r.Some? ==> r.value < |rows| && Matches(rows[r.value], tenant, email, reason)
    ensures r.None? ==> forall k :: 0 <= k < |rows| ==> !Matches(rows[k], tenant, email, reason)
  {
    if rows == [] then None
    else if Matches(rows[|rows| - 1], tenant, email, reason) then Some(|rows| - 1)
    else FindRow(rows[..|rows| - 1], tenant, email, reason)
  }

  predicate Matches(row: Suppression, tenant: Option<TenantId>, email: string, reason: Reason) {
    row.tenant == tenant && SameAddress(row.email, email) && row.reason == reason
  }

  /** Create the one row of a tenant, address and reason, or merge into it. */
  function Suppress(registry: Registry, tenant: Option<TenantId>, email: string, reason: Reason, marketing: bool,
                    transactional: bool, metadata: Metadata): Registry {
    var canonical := Lower(Strip(email));
    if canonical == "" then registry
    else
      var found := FindRow(registry.suppressions, tenant, canonical, reason);
      if found.Some? then
        var row := registry.suppressions[found.value];
        registry.(suppressions := registry.suppressions[found.value :=
          row.(marketing := marketing, transactional := transactional, metadata := row.metadata + metadata)])
      else
        registry.(suppressions := registry.suppressions
                    + [Suppression(registry.nextId, tenant, canonical, reason, marketing, transactional, metadata)],
                  nextId := registry.nextId + 1)
  }

  function HookMetadata(w: Webhook, key: string, value: string): Metadata {
    map["provider" := w.provider, "provider_message_id" := Strip(w.messageId), "webhook_event_id" := w.id, key := value]
  }

  function RiskPause(site: Site, s: Mail, tenant: TenantId, now: Time): Mail {
    var t := s.TenantOf(tenant);
    var pause := R.AfterEvaluation(t.pause, R.DesiredScope(site.thresholds, site.metrics(s.box.messages, tenant, now)));
    if pause == t.pause then s else s.(tenants := s.tenants[tenant := t.(pause := pause)])
  }

  function HookAddress(m: Message, w: Webhook): string {
    OrElse(Strip(OrElse(w.recipient, m.to)), m.to)
  }

  function OnBounce(site: Site, s: Mail, i: nat, w: Webhook): Mail
    requires i < |s.box.messages|
  {
    var m, email := s.box.messages[i], HookAddress(s.box.messages[i], w);
    if OrElse(w.bounceType, "soft") == "hard" then
      var registry := Suppress(s.registry, Some(m.tenant), email, HardBounce, true, true, HookMetadata(w, "reason", w.reason));
      RiskPause(site, s.(box := BouncedBox(s.box, i, w), registry := registry), m.tenant, w.now)
    else s.(box := BouncedBox(s.box, i, w))
  }

  function BouncedBox(before: Outbox, i: nat, w: Webhook): Outbox
    requires i < |before.messages|
  {
    var m, email, kind := before.messages[i], HookAddress(before.messages[i], w), OrElse(w.bounceType, "soft");
    var box := before.(bounces := before.bounces + [Bounce(m.tenant, email, i, kind, w.reason)]);
    if kind == "hard" then LogOnce(SetStatus(box, i, Bounced, w.now), i, BouncedEvent, w.eventId)
    else LogOnce(SetStatus(box, i, Deferred, w.now), i, DeferredEvent, w.eventId)
  }

  function OnComplaint(site: Site, s: Mail, i: nat, w: Webhook): Mail
    requires i < |s.box.messages|
  {
    var m, email := s.box.messages[i], HookAddress(s.box.messages[i], w);
    var registry := Suppress(s.registry, Some(m.tenant), email, SpamComplaint, true, false,
                             HookMetadata(w, "feedback_type", Cut(OrElse(w.reason, "spam"), 256)));
    RiskPause(site, s.(box := ComplainedBox(s.box, i, w), registry := registry), m.tenant, w.now)
  }

  function ComplainedBox(before: Outbox, i: nat, w: Webhook): Outbox
    requires i < |before.messages|
  {
    var m, email := before.messages[i], HookAddress(before.messages[i], w);
    var box := LogOnce(SetStatus(before, i, Complained, w.now), i, ComplainedEvent, w.eventId);
    box.(complaints := box.complaints + [Complaint(m.tenant, email, i, Cut(OrElse(w.reason, "spam"), 64))])
  }

  function Cut(s: string, n: nat): string {
    if |s| <= n then s else s[..n]
  }

  function OnFailure(s: Mail, i: nat, w: Webhook): Mail
    requires i < |s.box.messages|
  {
    if w.terminal then s.(box := LogOnce(SetStatus(s.box, i, Failed, w.now), i, FailedEvent, w.eventId))
    else
      var box := if s.box.messages[i].status in {Sending, Sent} then SetStatus(s.box, i, Deferred, w.now) else s.box;
      s.(box := LogOnce(box, i, DeferredEvent, w.eventId))
  }

  /** The message a webhook is applied to, unless it names none or has been applied before. */
  function Target(s: Mail, w: Webhook): Option<nat> {
    var mid := Strip(w.messageId);
    var found := if mid == "" then None else Lookup(s.box.messages, mid);
    if found.Some? && w.eventId != "" && Seen(s.box.events, found.value, w.eventId) then None else found
  }

  function OnHook(site: Site, s: Mail, i: nat, w: Webhook): Mail
    requires i < |s.box.messages|
  {
    match w.kind
    case DeliveredHook => s.(box := LogOnce(SetStatus(s.box, i, Delivered, w.now), i, DeliveredEvent, w.eventId))
    case OpenedHook => s.(box := LogOnce(s.box, i, OpenedEvent, w.eventId))
    case ClickedHook => s.(box := LogOnce(s.box, i, ClickedEvent, w.eventId))
    case BouncedHook => OnBounce(site, s, i, w)
    case ComplainedHook => OnComplaint(site, s, i, w)
    case FailedHook => OnFailure(s, i, w)
    case UnknownHook => s
  }

  /** `_apply_internal` */
  function Ingest(site: Site, s: Mail, w: Webhook): Mail {
    var target := Target(s, w);
    if target.None? then s else OnHook(site, s, target.value, w)
  }

  // ---------------------------------------------------------------------------------------------
  // The suppression list by hand
  // ---------------------------------------------------------------------------------------------

  /** A blank address raises and leaves the list as it was. */
  function AddManual(s: Mail, tenant: Option<TenantId>, email: string, marketing: bool, transactional: bool,
                     metadata: Metadata): Mail {
    s.(registry := Suppress(s.registry, tenant, email, Manual, marketing, transactional, metadata))
  }

  function FindId(rows: seq<Suppression>, id: nat): (r: Option<nat>)
    ensures r.Some? ==> r.value < |rows| && rows[r.value].id == id
    ensures r.None? ==> forall k :: 0 <= k < |rows| ==> rows[k].id != id
  {
    if rows == [] then None
    else if rows[|rows| - 1].id == id then Some(|rows| - 1) else FindId(rows[..|rows| - 1], id)
  }

  /** Deletes one row and writes one audit row. */
  function Remove(s: Mail, id: nat): Mail {
    var rows, found := s.registry.suppressions, FindId(s.registry.suppressions, id);
    if found.None? then s
    else
      var row := rows[found.value];
      s.(registry := s.registry.(
        suppressions := rows[..found.value] + rows[found.value + 1..],
        removals := s.registry.removals + [Removal(row.id, row.email, row.tenant, row.reason, row.metadata)]))
  }

  // ---------------------------------------------------------------------------------------------
  // Runs
  // ---------------------------------------------------------------------------------------------

  datatype Op =
    | CreateOp(request: Request)
    | DispatchOp(attempt: Attempt)
    | RetryOp(i: nat, now: Time)
    | CancelOp(i: nat, now: Time)
    | RetryDueOp(now: Time)
    | WebhookOp(webhook: Webhook)
    | AddManualOp(tenant: Option<TenantId>, email: string, marketing: bool, transactional: bool, metadata: Metadata)
    | RemoveOp(id: nat)
    | UnsubscribeOp(who: TenantId, email: string)
    | TenantOp(who: TenantId, settings: Tenant)
    | PolicyOp(domain: T.DomainId, policy: T.Policy)

  function Apply(site: Site, s: Mail, op: Op): Mail {
    match op
    case CreateOp(request) => Create(s, request)
    case DispatchOp(attempt) => Dispatch(site, s, attempt)
    case RetryOp(i, now) => Retry(s, i, now)
    case CancelOp(i, now) => Cancel(s, i, now)
    case RetryDueOp(now) => RetryDueDeferred(s, now)
    case WebhookOp(webhook) => Ingest(site, s, webhook)
    case AddManualOp(tenant, email, marketing, transactional, metadata) =>
      AddManual(s, tenant, email, marketing, transactional, metadata)
    case RemoveOp(id) => Remove(s, id)
    case UnsubscribeOp(who, email) =>
      s.(registry := s.registry.(unsubscribes := s.registry.unsubscribes + {(who, email)}))
    case TenantOp(who, settings) => s.(tenants := s.tenants[who := settings])
    case PolicyOp(domain, policy) => s.(policies := s.policies[domain := policy])
  }

  function Run(site: Site, s: Mail, ops: seq<Op>): Mail
    decreases |ops|
  {
    if ops == [] then s else Run(site, Apply(site, s, ops[0]), ops[1..])
  }
}
