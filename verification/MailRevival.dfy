/**
Which messages can be handed to a provider, for the first time or again: any that is not created suppressed,
rendered or not; of those at rest exactly the ones that webhooks can name; and of the webhooks on a sent
message exactly the soft bounces and failure reports put it back into play.
 */
module MailRevival {
  import opened Options
  import opened Strings
  import opened MailModel
  import opened MailLifecycle
  import T = Throttling
  import R = SendingRisk
  import W = MailWebhooks

  // ---------------------------------------------------------------------------------------------
  // Composing runs
  // ---------------------------------------------------------------------------------------------

  lemma {:induction false} RunConcat(site: Site, s: Mail, first: seq<Op>, more: seq<Op>)
    ensures Run(site, s, first + more) == Run(site, Run(site, s, first), more)
    decreases |first|
  {
    if first == [] {
      assert first + more == more;
    } else {
      assert (first + more)[1..] == first[1..] + more;
      RunConcat(site, Apply(site, s, first[0]), first[1..], more);
    }
  }

  lemma RunOne(site: Site, s: Mail, op: Op)
    ensures Run(site, s, [op]) == Apply(site, s, op)
  {
    assert [op][1..] == [];
  }

  // ---------------------------------------------------------------------------------------------
  // Sending once more
  // ---------------------------------------------------------------------------------------------

  /** A moment from which every window is empty. */
  function QuietTime(slots: seq<T.Slot>): Time {
    if slots == [] then 0
    else T.Max(QuietTime(slots[..|slots| - 1]), slots[|slots| - 1].at + T.ROLLING_WINDOW + 1)
  }

  lemma {:induction false} QuietTimeIsQuiet(slots: seq<T.Slot>, scope: T.Scope, from: Time)
    requires from >= QuietTime(slots) - T.ROLLING_WINDOW
    ensures T.Count(slots, scope, T.Since(from)) == 0
  {
    if slots != [] {
      QuietTimeIsQuiet(slots[..|slots| - 1], scope, from);
    }
  }

  const NO_POLICY := T.Policy(false, None, None)

  /** Only message j differs, and there is one more call, an accepted one for j. */
  predicate Resent(box: Outbox, box': Outbox, j: nat) {
    && |box'.messages| == |box.messages| && box'.handoffs == box.handoffs + [Handoff(j, true)]
    && forall k :: 0 <= k < |box.messages| && k != j ==> box'.messages[k] == box.messages[k]
  }

  /** A queued message is sent, under any identifier, once its window is quiet and neither its tenant nor its
      domain is held back. */
  lemma SendQueued(site: Site, s: Mail, j: nat, id: string) returns (a: Attempt)
    requires j < |s.box.messages| && s.box.messages[j].status == Queued
    requires var m := s.box.messages[j];
             s.TenantOf(m.tenant) == Tenant(1, R.NOT_PAUSED) && (m.domain.Some? ==> PolicyFor(s, m) == Some(NO_POLICY))
    ensures Resent(s.box, Dispatch(site, s, a).box, j) && Dispatch(site, s, a).box.messages[j].providerId == id
  {
    var m, at := s.box.messages[j], QuietTime(s.box.slots);
    a := Attempt(j, if m.sendAfter.Some? then m.sendAfter.value else at, at, at, at, at, false, Accepts(id));
    QuietTimeIsQuiet(s.box.slots, T.OfTenant(m.tenant), at - T.ROLLING_WINDOW);
    assert CapacityCheck(site, s, j, at).Allowed?;
  }

  lemma Settle(site: Site, s: Mail, m: Message) returns (ops: seq<Op>)
    ensures var s' := Run(site, s, ops);
            && s'.box == s.box && s'.TenantOf(m.tenant) == Tenant(1, R.NOT_PAUSED)
            && (m.domain.Some? ==> PolicyFor(s', m) == Some(NO_POLICY))
    ensures NoWebhooks(ops)
  {
    var tenant := TenantOp(m.tenant, Tenant(1, R.NOT_PAUSED));
    var policy := PolicyOp(if m.domain.Some? then m.domain.value else 0, NO_POLICY);
    RunOne(site, s, tenant);
    RunOne(site, Apply(site, s, tenant), policy);
    ops := [tenant] + [policy];
    RunConcat(site, s, [tenant], [policy]);
  }

  /** A deferred or failed message can be retried and sent, under any identifier, without any webhook. */
  lemma SendAgain(site: Site, s: Mail, j: nat, id: string) returns (ops: seq<Op>)
    requires j < |s.box.messages| && s.box.messages[j].status in {Failed, Deferred}
    ensures var box := Run(site, s, ops).box; Resent(s.box, box, j) && box.messages[j].providerId == id
    ensures NoWebhooks(ops)
  {
    var retry := RetryOp(j, 0);
    var s1 := Apply(site, s, retry);
    RunOne(site, s, retry);
    var settle := Settle(site, s1, s1.box.messages[j]);
    var s2 := Run(site, s1, settle);
    var a := SendQueued(site, s2, j, id);
    RunOne(site, s2, DispatchOp(a));
    RunConcat(site, s1, settle, [DispatchOp(a)]);
    ops := [retry] + (settle + [DispatchOp(a)]);
    RunConcat(site, s, [retry], settle + [DispatchOp(a)]);
  }

  // ---------------------------------------------------------------------------------------------
  // Messages that webhooks can name
  // ---------------------------------------------------------------------------------------------

  /** A soft bounce defers the newest message with its identifier, whatever its status. */
  lemma SoftBounceDefers(site: Site, s: Mail, id: string) returns (op: Op)
    requires Nameable(id) && Lookup(s.box.messages, id).Some?
    ensures var j, box := Lookup(s.box.messages, id).value, Run(site, s, [op]).box;
            && box.messages == s.box.messages[j := s.box.messages[j].(status := Deferred, updatedAt := 0)]
            && box.handoffs == s.box.handoffs
  {
    op := WebhookOp(Webhook("", "", id, "", BouncedHook, "", "soft", "", true, 0));
    RunOne(site, s, op);
  }

  /** So that message can be sent again under another identifier. */
  lemma Rename(site: Site, s: Mail, id: string) returns (ops: seq<Op>)
    requires Nameable(id) && Lookup(s.box.messages, id).Some?
    ensures var j, box := Lookup(s.box.messages, id).value, Run(site, s, ops).box;
            Resent(s.box, box, j) && box.messages[j].providerId != id
  {
    var bounce := SoftBounceDefers(site, s, id);
    var s1 := Run(site, s, [bounce]);
    var more := SendAgain(site, s1, Lookup(s.box.messages, id).value, id + "x");
    RunConcat(site, s, [bounce], more);
    ops := [bounce] + more;
  }

  /** A message with a nameable identifier is sent again once the newer messages with it have been renamed. */
  lemma {:induction false} Revive(site: Site, s: Mail, i: nat) returns (ops: seq<Op>)
    requires i < |s.box.messages| && Nameable(s.box.messages[i].providerId)
    ensures var box := Run(site, s, ops).box;
            && i < |box.messages| && box.messages[i] != s.box.messages[i]
            && AcceptedOf(box.handoffs, i) == AcceptedOf(s.box.handoffs, i) + 1
    decreases var r := Lookup(s.box.messages, s.box.messages[i].providerId); if r.Some? then r.value else 0
  {
    var id := s.box.messages[i].providerId;
    var j := Lookup(s.box.messages, id).value;
    ops := Rename(site, s, id);
    CallSnoc(s.box.handoffs, Handoff(j, true), i);
    if j != i {
      var s' := Run(site, s, ops);
      var more := Revive(site, s', i);
      RunConcat(site, s, ops, more);
      ops := ops + more;
    }
  }

  // ---------------------------------------------------------------------------------------------
  // Main results
  // ---------------------------------------------------------------------------------------------

  /** Cancelling is final exactly for messages no webhook can name: with a provider identifier that is blank,
      or that stripping changes, nothing ever moves the message again; with any other, some run does. */
  lemma CancelIsFinalIffUnnameable(site: Site, s: Mail, i: nat, now: Time)
    requires i < |s.box.messages| && Cancel(s, i, now) != s
    ensures var c := Cancel(s, i, now);
            !Nameable(s.box.messages[i].providerId) <==> forall ops :: Untouched(c.box, Run(site, c, ops).box, i)
  {
    var c := Cancel(s, i, now);
    if Nameable(s.box.messages[i].providerId) {
      var ops := Revive(site, c, i);
      assert !Untouched(c.box, Run(site, c, ops).box, i);
    } else {
      forall ops
        ensures Untouched(c.box, Run(site, c, ops).box, i)
      {
        FrozenForever(site, c, ops, i);
      }
    }
  }

  /** A message at rest, such as one that has been sent, is never accepted by a provider again exactly when
      webhooks cannot name it. */
  lemma NeverResentIffUnnameable(site: Site, s: Mail, i: nat)
    requires i < |s.box.messages| && AtRest(s.box.messages[i].status)
    ensures !Nameable(s.box.messages[i].providerId)
       <==> forall ops :: AcceptedOf(Run(site, s, ops).box.handoffs, i) == AcceptedOf(s.box.handoffs, i)
  {
    if Nameable(s.box.messages[i].providerId) {
      var ops := Revive(site, s, i);
      assert AcceptedOf(Run(site, s, ops).box.handoffs, i) != AcceptedOf(s.box.handoffs, i);
    } else {
      forall ops
        ensures AcceptedOf(Run(site, s, ops).box.handoffs, i) == AcceptedOf(s.box.handoffs, i)
      {
        FrozenForever(site, s, ops, i);
      }
    }
  }

  /** Soft bounces and failure reports, terminal or not. */
  predicate Reopening(w: Webhook) {
    (w.kind == BouncedHook && OrElse(w.bounceType, "soft") != "hard") || w.kind == FailedHook
  }

  predicate AcceptedAgain(s: Mail, s': Mail, i: nat) {
    AcceptedOf(s'.box.handoffs, i) > AcceptedOf(s.box.handoffs, i)
  }

  /** Of the webhooks on a sent message exactly these put it back into play: after them, and after no others,
      some run without a further webhook has it accepted a second time. */
  lemma SecondSendIffReopened(site: Site, s: Mail, w: Webhook)
    requires Target(s, w).Some? && s.box.messages[Target(s, w).value].status == Sent
    ensures var i := Target(s, w).value;
            Reopening(w) <==> exists ops :: NoWebhooks(ops) && AcceptedAgain(s, Run(site, Ingest(site, s, w), ops), i)
  {
    var i, s' := Target(s, w).value, Ingest(site, s, w);
    AfterHook(site, s, w);
    if Reopening(w) {
      var ops := SendAgain(site, s', i, "");
      CallSnoc(s'.box.handoffs, Handoff(i, true), i);
      assert NoWebhooks(ops) && AcceptedAgain(s, Run(site, s', ops), i);
    } else {
      forall ops | NoWebhooks(ops)
        ensures !AcceptedAgain(s, Run(site, s', ops), i)
      {
        RestsWithoutWebhooks(site, s', ops, i);
      }
    }
  }

  lemma AfterHook(site: Site, s: Mail, w: Webhook)
    requires Target(s, w).Some? && s.box.messages[Target(s, w).value].status == Sent
    ensures var i, box := Target(s, w).value, Ingest(site, s, w).box;
            && box.handoffs == s.box.handoffs && i < |box.messages|
            && if Reopening(w) then box.messages[i].status in {Failed, Deferred} else AtRest(box.messages[i].status)
  {
    W.IngestMarks(site, s, w);
    StatusAfter(site, s, Target(s, w).value, w);
  }

  lemma StatusAfter(site: Site, s: Mail, i: nat, w: Webhook)
    requires i < |s.box.messages| && s.box.messages[i].status == Sent
    ensures var messages := OnHook(site, s, i, w).box.messages;
            i < |messages| && if Reopening(w) then messages[i].status in {Failed, Deferred} else AtRest(messages[i].status)
  {
    match w.kind
    case BouncedHook => assert OnBounce(site, s, i, w).box == BouncedBox(s.box, i, w);
    case ComplainedHook => assert OnComplaint(site, s, i, w).box == ComplainedBox(s.box, i, w);
    case _ =>
  }

  // ---------------------------------------------------------------------------------------------
  // Messages that did not render
  // ---------------------------------------------------------------------------------------------

  predicate Retries(op: Op, i: nat) {
    op.RetryOp? && op.i == i
  }

  predicate NeverRetried(ops: seq<Op>, i: nat) {
    forall k :: 0 <= k < |ops| ==> !Retries(ops[k], i)
  }

  lemma FailedStep(site: Site, s: Mail, op: Op, i: nat)
    requires i < |s.box.messages| && s.box.messages[i].status == Failed && !Nameable(s.box.messages[i].providerId)
    requires !Retries(op, i)
    ensures Untouched(s.box, Apply(site, s, op).box, i)
  {
    match op
    case DispatchOp(attempt) =>
      if attempt.message != i {
        DispatchLeavesOthers(site, s, attempt, i);
      }
    case WebhookOp(webhook) =>
      StripTwice(webhook.messageId);
      IngestLeavesOthers(site, s, webhook, i);
    case RetryDueOp(now) => RequeuedAt(s.box.messages, now, RETRY_BATCH, i);
    case _ =>
  }

  lemma {:induction false} FailedUntilRetried(site: Site, s: Mail, ops: seq<Op>, i: nat)
    requires i < |s.box.messages| && s.box.messages[i].status == Failed && !Nameable(s.box.messages[i].providerId)
    requires NeverRetried(ops, i)
    ensures Untouched(s.box, Run(site, s, ops).box, i)
    decreases |ops|
  {
    if ops != [] {
      FailedStep(site, s, ops[0], i);
      FailedUntilRetried(site, Apply(site, s, ops[0]), ops[1..], i);
    }
  }

  /** Some run has the message accepted. */
  ghost predicate Sendable(site: Site, s: Mail, i: nat) {
    exists ops :: AcceptedAgain(s, Run(site, s, ops), i)
  }

  /** A message that has been created can be handed to a provider in some run exactly when it was not
      suppressed; whether its body rendered plays no part. */
  lemma SendableIffNotSuppressed(site: Site, s: Mail, r: Request)
    requires Inv(s.box) && Accepted(s, r)
    ensures !ShouldSuppress(s.registry, r.tenant, r.to, r.kind) <==> Sendable(site, Create(s, r), |s.box.messages|)
  {
    var i, c := |s.box.messages|, Create(s, r);
    NewMessageIsUnmetered(s.box);
    if ShouldSuppress(s.registry, r.tenant, r.to, r.kind) {
      forall ops
        ensures !AcceptedAgain(c, Run(site, c, ops), i)
      {
        FrozenForever(site, c, ops, i);
      }
    } else {
      var ops := SendCreated(site, c, i);
    }
  }

  lemma SendCreated(site: Site, s: Mail, i: nat) returns (ops: seq<Op>)
    requires i < |s.box.messages| && s.box.messages[i].status in {Queued, Failed}
    ensures AcceptedAgain(s, Run(site, s, ops), i)
  {
    CallSnoc(s.box.handoffs, Handoff(i, true), i);
    if s.box.messages[i].status == Failed {
      ops := SendAgain(site, s, i, "");
    } else {
      var settle := Settle(site, s, s.box.messages[i]);
      var s' := Run(site, s, settle);
      var a := SendQueued(site, s', i, "");
      RunOne(site, s', DispatchOp(a));
      RunConcat(site, s, settle, [DispatchOp(a)]);
      ops := settle + [DispatchOp(a)];
    }
  }

  /** A message whose body failed to render waits for a retry: no run without one calls a provider for it, and
      unless it was suppressed some run, hence one with a retry, has it accepted unrendered. */
  lemma UnrenderedIsSentOnlyByRetry(site: Site, s: Mail, r: Request)
    requires Inv(s.box) && Accepted(s, r) && !r.renders
    ensures forall ops :: NeverRetried(ops, |s.box.messages|) ==>
                            CallsOf(Run(site, Create(s, r), ops).box.handoffs, |s.box.messages|) == 0
    ensures !ShouldSuppress(s.registry, r.tenant, r.to, r.kind) <==> Sendable(site, Create(s, r), |s.box.messages|)
  {
    var i, c := |s.box.messages|, Create(s, r);
    NewMessageIsUnmetered(s.box);
    SendableIffNotSuppressed(site, s, r);
    forall ops | NeverRetried(ops, i)
      ensures CallsOf(Run(site, c, ops).box.handoffs, i) == 0
    {
      if ShouldSuppress(s.registry, r.tenant, r.to, r.kind) {
        FrozenForever(site, c, ops, i);
      } else {
        FailedUntilRetried(site, c, ops, i);
      }
    }
  }
}
