/**
Providers deliver every webhook at least once; applying them has exactly-once effect.
 */
module MailWebhooks {
  import opened Options
  import opened Strings
  import opened MailModel
  import Normalizer
  import T = Throttling

  // ---------------------------------------------------------------------------------------------
  // What one webhook changes in the outbox
  // ---------------------------------------------------------------------------------------------

  /** Only message i changes, it keeps its provider identifier, and one event with the webhook's
      identifier is recorded for it. */
  ghost predicate Marks(box: Outbox, box': Outbox, i: nat, eventId: string)
    requires i < |box.messages|
  {
    && |box'.messages| == |box.messages|
    && (forall j :: 0 <= j < |box.messages| && j != i ==> box'.messages[j] == box.messages[j])
    && box'.messages[i].providerId == box.messages[i].providerId
    && box'.handoffs == box.handoffs && box'.slots == box.slots
    && exists kind :: box'.events == box.events + [Event(i, kind, eventId, true)]
  }

  lemma LogOnceMarks(box: Outbox, i: nat, kind: EventType, eventId: string)
    requires i < |box.messages| && (eventId != "" ==> !Seen(box.events, i, eventId))
    ensures Marks(box, LogOnce(box, i, kind, eventId), i, eventId)
  {
  }

  lemma StatusThenLogMarks(box: Outbox, i: nat, status: Status, now: Time, kind: EventType, eventId: string)
    requires i < |box.messages| && (eventId != "" ==> !Seen(box.events, i, eventId))
    ensures Marks(box, LogOnce(SetStatus(box, i, status, now), i, kind, eventId), i, eventId)
  {
  }

  lemma BounceMarks(site: Site, s: Mail, i: nat, w: Webhook)
    requires i < |s.box.messages| && (w.eventId != "" ==> !Seen(s.box.events, i, w.eventId))
    ensures Marks(s.box, OnBounce(site, s, i, w).box, i, w.eventId)
  {
    var m := s.box.messages[i];
    var box := s.box.(bounces := s.box.bounces + [Bounce(m.tenant, HookAddress(m, w), i, OrElse(w.bounceType, "soft"), w.reason)]);
    StatusThenLogMarks(box, i, Bounced, w.now, BouncedEvent, w.eventId);
    StatusThenLogMarks(box, i, Deferred, w.now, DeferredEvent, w.eventId);
  }

  lemma ComplaintMarks(site: Site, s: Mail, i: nat, w: Webhook)
    requires i < |s.box.messages| && (w.eventId != "" ==> !Seen(s.box.events, i, w.eventId))
    ensures Marks(s.box, OnComplaint(site, s, i, w).box, i, w.eventId)
  {
  }

  lemma FailureMarks(s: Mail, i: nat, w: Webhook)
    requires i < |s.box.messages| && (w.eventId != "" ==> !Seen(s.box.events, i, w.eventId))
    ensures Marks(s.box, OnFailure(s, i, w).box, i, w.eventId)
  {
  }

  /** A webhook is without effect exactly when it names no message we know, repeats an identified event of
      that message, or is of a kind we do not know; otherwise it marks its message. */
  lemma IngestMarks(site: Site, s: Mail, w: Webhook)
    ensures Target(s, w).None? || w.kind == UnknownHook ==> Ingest(site, s, w) == s
    ensures Target(s, w).Some? && w.kind != UnknownHook ==>
              Marks(s.box, Ingest(site, s, w).box, Target(s, w).value, w.eventId)
    ensures Ingest(site, s, w) == s <==> Target(s, w).None? || w.kind == UnknownHook
  {
    var target := Target(s, w);
    if target.Some? && w.kind != UnknownHook {
      var i := target.value;
      match w.kind {
        case DeliveredHook => StatusThenLogMarks(s.box, i, Delivered, w.now, DeliveredEvent, w.eventId);
        case OpenedHook => LogOnceMarks(s.box, i, OpenedEvent, w.eventId);
        case ClickedHook => LogOnceMarks(s.box, i, ClickedEvent, w.eventId);
        case BouncedHook => BounceMarks(site, s, i, w);
        case ComplainedHook => ComplaintMarks(site, s, i, w);
        case FailedHook => FailureMarks(s, i, w);
      }
      assert |Ingest(site, s, w).box.events| == |s.box.events| + 1;
    }
  }

  // ---------------------------------------------------------------------------------------------
  // Repeats
  // ---------------------------------------------------------------------------------------------

  /** The same event again: same message, same event identifier, same kind.  The delivery's own identifier,
      its time and anything else may differ. */
  predicate Repeats(w: Webhook, earlier: Webhook) {
    Strip(w.messageId) == Strip(earlier.messageId) && w.eventId == earlier.eventId && w.kind == earlier.kind
  }

  /** The event can be recognised when it comes again. */
  predicate Identified(w: Webhook) {
    Strip(w.messageId) != "" ==> w.eventId != ""
  }

  predicate NoEffect(s: Mail, w: Webhook) {
    Target(s, w).None? || w.kind == UnknownHook
  }

  lemma LookupStays(a: seq<Message>, b: seq<Message>, mid: string)
    requires |a| == |b| && forall k :: 0 <= k < |a| ==> a[k].providerId == b[k].providerId
    ensures Lookup(a, mid) == Lookup(b, mid)
  {
  }

  lemma SeenGrows(events: seq<Event>, e: Event, i: nat, eventId: string)
    requires Seen(events, i, eventId) || (e.message == i && e.providerEventId == eventId)
    ensures Seen(events + [e], i, eventId)
  {
  }

  /** Once applied, an identified event has no effect any more. */
  lemma AppliedOnce(site: Site, s: Mail, w: Webhook, again: Webhook)
    requires Identified(w) && Repeats(again, w)
    ensures NoEffect(Ingest(site, s, w), again)
  {
    IngestMarks(site, s, w);
    if Target(s, w).Some? && w.kind != UnknownHook {
      var i, s' := Target(s, w).value, Ingest(site, s, w);
      LookupStays(s.box.messages, s'.box.messages, Strip(w.messageId));
      var kind :| s'.box.events == s.box.events + [Event(i, kind, w.eventId, true)];
      SeenGrows(s.box.events, Event(i, kind, w.eventId, true), i, w.eventId);
    }
  }

  /** Webhooks never revive an event. */
  lemma NoEffectStays(site: Site, s: Mail, other: Webhook, w: Webhook)
    requires NoEffect(s, w)
    ensures NoEffect(Ingest(site, s, other), w)
  {
    IngestMarks(site, s, other);
    if Target(s, other).Some? && other.kind != UnknownHook {
      var i, s' := Target(s, other).value, Ingest(site, s, other);
      var mid := Strip(w.messageId);
      LookupStays(s.box.messages, s'.box.messages, mid);
      var found := Lookup(s.box.messages, mid);
      if mid != "" && found.Some? && w.kind != UnknownHook {
        var kind :| s'.box.events == s.box.events + [Event(i, kind, other.eventId, true)];
        SeenGrows(s.box.events, Event(i, kind, other.eventId, true), found.value, w.eventId);
      }
    }
  }

  function IngestAll(site: Site, s: Mail, ws: seq<Webhook>): Mail {
    if ws == [] then s else Ingest(site, IngestAll(site, s, ws[..|ws| - 1]), ws[|ws| - 1])
  }

  /** The deliveries that are not a later repeat of an identified event. */
  function FirstDeliveries(ws: seq<Webhook>): seq<Webhook> {
    if ws == [] then []
    else
      var init, last := ws[..|ws| - 1], ws[|ws| - 1];
      if Identified(last) && exists k :: 0 <= k < |init| && Repeats(last, init[k])
      then FirstDeliveries(init) else FirstDeliveries(init) + [last]
  }

  lemma {:induction false} DeliveredHasNoEffect(site: Site, s: Mail, ws: seq<Webhook>, k: nat, again: Webhook)
    requires k < |ws| && Identified(again) && Repeats(again, ws[k])
    ensures NoEffect(IngestAll(site, s, ws), again)
  {
    var init, last := ws[..|ws| - 1], ws[|ws| - 1];
    if k == |init| {
      AppliedOnce(site, IngestAll(site, s, init), last, again);
    } else {
      DeliveredHasNoEffect(site, s, init, k, again);
      NoEffectStays(site, IngestAll(site, s, init), last, again);
    }
  }

  // ---------------------------------------------------------------------------------------------
  // Main results
  // ---------------------------------------------------------------------------------------------

  /** At-least-once delivery has exactly-once effect: dropping every later repeat of an identified event
      leaves the whole final database the same. */
  lemma {:induction false} RepeatsDoNotMatter(site: Site, s: Mail, ws: seq<Webhook>)
    ensures IngestAll(site, s, ws) == IngestAll(site, s, FirstDeliveries(ws))
  {
    if ws != [] {
      var init, last := ws[..|ws| - 1], ws[|ws| - 1];
      RepeatsDoNotMatter(site, s, init);
      if Identified(last) && exists k :: 0 <= k < |init| && Repeats(last, init[k]) {
        var k :| 0 <= k < |init| && Repeats(last, init[k]);
        DeliveredHasNoEffect(site, s, init, k, last);
        IngestMarks(site, IngestAll(site, s, init), last);
      } else {
        assert FirstDeliveries(ws)[..|FirstDeliveries(ws)| - 1] == FirstDeliveries(init);
      }
    }
  }

  /** The webhook was normalised from a Postal payload. */
  predicate FromPostal(w: Webhook, raw: Normalizer.Payload) {
    w.messageId == Normalizer.NormalizePostal(raw).message && w.eventId == Normalizer.NormalizePostal(raw).event
  }

  lemma PostalIsIdentified(w: Webhook, raw: Normalizer.Payload)
    requires FromPostal(w, raw)
    ensures Identified(w)
  {
    Normalizer.PostalEventsAreIdentified(raw);
    assert Strip("") == "";
  }

  /** No delivery is a later repeat of another. */
  predicate NoRepeats(ws: seq<Webhook>) {
    forall j, k :: 0 <= j < k < |ws| ==> !Repeats(ws[k], ws[j])
  }

  /** Whoever delivered an event for the first time is still there. */
  lemma {:induction false} FirstsRemain(ws: seq<Webhook>, k: nat)
    requires k < |ws|
    ensures exists j :: 0 <= j < |FirstDeliveries(ws)| && Repeats(ws[k], FirstDeliveries(ws)[j])
  {
    var init, last := ws[..|ws| - 1], ws[|ws| - 1];
    var firsts := FirstDeliveries(init);
    if k < |init| {
      FirstsRemain(init, k);
      var j :| 0 <= j < |firsts| && Repeats(ws[k], firsts[j]);
      assert FirstDeliveries(ws)[j] == firsts[j];
    } else if FirstDeliveries(ws) == firsts {
      var m :| 0 <= m < |init| && Repeats(last, init[m]);
      FirstsRemain(init, m);
      var j :| 0 <= j < |firsts| && Repeats(init[m], firsts[j]);
      assert Repeats(last, firsts[j]);
    } else {
      assert FirstDeliveries(ws)[|firsts|] == last;
    }
  }

  lemma {:induction false} FirstsAreFirst(ws: seq<Webhook>)
    requires forall k :: 0 <= k < |ws| ==> Identified(ws[k])
    ensures NoRepeats(FirstDeliveries(ws))
    ensures forall w :: w in FirstDeliveries(ws) ==> w in ws
  {
    if ws != [] {
      var init, last := ws[..|ws| - 1], ws[|ws| - 1];
      FirstsAreFirst(init);
      var firsts := FirstDeliveries(init);
      forall j | 0 <= j < |firsts| && Repeats(last, firsts[j])
        ensures exists k :: 0 <= k < |init| && Repeats(last, init[k])
      {
        assert firsts[j] in init;
      }
    }
  }

  /** For Postal, whose events are all identified, at-least-once delivery therefore is exactly-once: the final
      database is that of some of the deliveries, of which none repeats another and every one is represented. */
  lemma PostalIsExactlyOnce(site: Site, s: Mail, ws: seq<Webhook>, raws: seq<Normalizer.Payload>)
    requires |raws| == |ws| && forall k :: 0 <= k < |ws| ==> FromPostal(ws[k], raws[k])
    ensures IngestAll(site, s, ws) == IngestAll(site, s, FirstDeliveries(ws))
    ensures NoRepeats(FirstDeliveries(ws))
    ensures forall k :: 0 <= k < |ws| ==>
              exists j :: 0 <= j < |FirstDeliveries(ws)| && Repeats(ws[k], FirstDeliveries(ws)[j])
  {
    forall k | 0 <= k < |ws|
      ensures Identified(ws[k])
    {
      PostalIsIdentified(ws[k], raws[k]);
    }
    RepeatsDoNotMatter(site, s, ws);
    FirstsAreFirst(ws);
    forall k: nat | k < |ws|
      ensures exists j :: 0 <= j < |FirstDeliveries(ws)| && Repeats(ws[k], FirstDeliveries(ws)[j])
    {
      FirstsRemain(ws, k);
    }
  }

  /** A webhook that takes effect does so once exactly when it has an event identifier: without one, of
      whatever kind, it changes the database again when it is delivered again. */
  lemma AppliedOnceIffIdentified(site: Site, s: Mail, w: Webhook, again: Webhook)
    requires Target(s, w).Some? && w.kind != UnknownHook && Repeats(again, w)
    ensures Ingest(site, Ingest(site, s, w), again) == Ingest(site, s, w) <==> w.eventId != ""
  {
    var once := Ingest(site, s, w);
    IngestMarks(site, s, w);
    IngestMarks(site, once, again);
    if w.eventId != "" {
      AppliedOnce(site, s, w, again);
    } else {
      LookupStays(s.box.messages, once.box.messages, Strip(w.messageId));
    }
  }

  // ---------------------------------------------------------------------------------------------
  // The event log
  // ---------------------------------------------------------------------------------------------

  /** No event identifier is on record twice for a message. */
  predicate EventsOnce(events: seq<Event>) {
    forall j, k :: 0 <= j < k < |events| && events[j].message == events[k].message && events[j].providerEventId != ""
      ==> events[j].providerEventId != events[k].providerEventId
  }

  /** Appends at most a few events of the system's own. */
  predicate OwnEvents(events: seq<Event>, events': seq<Event>) {
    events <= events' && forall k :: |events| <= k < |events'| ==> events'[k].providerEventId == ""
  }

  lemma OwnEventsKeep(events: seq<Event>, events': seq<Event>)
    requires EventsOnce(events) && OwnEvents(events, events')
    ensures EventsOnce(events')
  {
  }

  lemma IngestKeepsEventsOnce(site: Site, s: Mail, w: Webhook)
    requires EventsOnce(s.box.events)
    ensures EventsOnce(Ingest(site, s, w).box.events)
  {
    IngestMarks(site, s, w);
    if !NoEffect(s, w) {
      var i := Target(s, w).value;
      var kind :| Ingest(site, s, w).box.events == s.box.events + [Event(i, kind, w.eventId, true)];
      assert forall j :: 0 <= j < |s.box.events| ==> s.box.events[j] in s.box.events;
    }
  }

  lemma HandOverLogsOwn(s: Mail, a: Attempt)
    requires a.message < |s.box.messages|
    ensures OwnEvents(s.box.events, HandOver(s, a).events)
  {
  }

  lemma DispatchLogsOwn(site: Site, s: Mail, a: Attempt)
    ensures OwnEvents(s.box.events, Dispatch(site, s, a).box.events)
  {
    if Dispatchable(s, a) {
      var m := s.box.messages[a.message];
      var row := T.Reservation(SlotRequest(m, a.message), PolicyFor(s, m), a.stamp);
      HandOverLogsOwn(s.(box := s.box.(slots := s.box.slots + [row])), a);
    }
  }

  lemma CreateLogsOwn(s: Mail, r: Request)
    ensures OwnEvents(s.box.events, Create(s, r).box.events)
  {
  }

  lemma EventsOnceStep(site: Site, s: Mail, op: Op)
    requires EventsOnce(s.box.events)
    ensures EventsOnce(Apply(site, s, op).box.events)
  {
    match op
    case CreateOp(request) =>
      CreateLogsOwn(s, request);
      OwnEventsKeep(s.box.events, Create(s, request).box.events);
    case DispatchOp(attempt) =>
      DispatchLogsOwn(site, s, attempt);
      OwnEventsKeep(s.box.events, Dispatch(site, s, attempt).box.events);
    case WebhookOp(webhook) => IngestKeepsEventsOnce(site, s, webhook);
    case _ =>
  }

  lemma {:induction false} EventsOnceKept(site: Site, s: Mail, ops: seq<Op>)
    requires EventsOnce(s.box.events)
    ensures EventsOnce(Run(site, s, ops).box.events)
    decreases |ops|
  {
    if ops != [] {
      EventsOnceStep(site, s, ops[0]);
      EventsOnceKept(site, Apply(site, s, ops[0]), ops[1..]);
    }
  }

  /** In every run no message has the same event identifier on record twice, whatever kinds it was logged under. */
  lemma EachEventIsRecordedOnce(site: Site, ops: seq<Op>)
    ensures EventsOnce(Run(site, EMPTY, ops).box.events)
  {
    EventsOnceKept(site, EMPTY, ops);
  }

  // ---------------------------------------------------------------------------------------------
  // Repeats among all other operations
  // ---------------------------------------------------------------------------------------------

  /** No later provider call is answered with this message identifier. */
  predicate NeverReissued(mid: string, ops: seq<Op>) {
    forall k :: 0 <= k < |ops| && ops[k].DispatchOp? ==> ops[k].attempt.provider != Accepts(mid)
  }

  /** The event of message i is on record, and no other message answers to the identifier. */
  ghost predicate Recorded(box: Outbox, i: nat, mid: string, eventId: string) {
    && i < |box.messages| && mid != "" && Seen(box.events, i, eventId)
    && forall j :: 0 <= j < |box.messages| && box.messages[j].providerId == mid ==> j == i
  }

  lemma EventsOnlyGrow(a: seq<Event>, b: seq<Event>, i: nat, eventId: string)
    requires a <= b && Seen(a, i, eventId)
    ensures Seen(b, i, eventId)
  {
  }

  lemma HandOverOnlyAdds(s: Mail, a: Attempt)
    requires a.message < |s.box.messages|
    ensures var box' := HandOver(s, a);
            && |box'.messages| == |s.box.messages| && s.box.events <= box'.events
            && forall j :: 0 <= j < |s.box.messages| ==>
                 box'.messages[j].providerId == s.box.messages[j].providerId || a.provider == Accepts(box'.messages[j].providerId)
  {
  }

  lemma DispatchOnlyAdds(site: Site, s: Mail, a: Attempt)
    ensures var box' := Dispatch(site, s, a).box;
            && |box'.messages| == |s.box.messages| && s.box.events <= box'.events
            && forall j :: 0 <= j < |s.box.messages| ==>
                 box'.messages[j].providerId == s.box.messages[j].providerId || a.provider == Accepts(box'.messages[j].providerId)
  {
    if Dispatchable(s, a) {
      var m := s.box.messages[a.message];
      var row := T.Reservation(SlotRequest(m, a.message), PolicyFor(s, m), a.stamp);
      HandOverOnlyAdds(s.(box := s.box.(slots := s.box.slots + [row])), a);
    }
  }

  lemma RecordedStep(site: Site, s: Mail, op: Op, i: nat, mid: string, eventId: string)
    requires Recorded(s.box, i, mid, eventId) && NeverReissued(mid, [op])
    ensures Recorded(Apply(site, s, op).box, i, mid, eventId)
  {
    var s' := Apply(site, s, op);
    match op
    case DispatchOp(attempt) =>
      assert [op][0] == op;
      DispatchOnlyAdds(site, s, attempt);
      EventsOnlyGrow(s.box.events, s'.box.events, i, eventId);
    case WebhookOp(webhook) =>
      IngestMarks(site, s, webhook);
      EventsOnlyGrow(s.box.events, s'.box.events, i, eventId);
    case RetryDueOp(now) =>
      forall j | 0 <= j < |s.box.messages|
        ensures s'.box.messages[j].providerId == s.box.messages[j].providerId
      {
        RequeuedAt(s.box.messages, now, RETRY_BATCH, j);
      }
    case CreateOp(request) =>
      EventsOnlyGrow(s.box.events, s'.box.events, i, eventId);
    case _ =>
  }

  lemma {:induction false} RecordedForever(site: Site, s: Mail, ops: seq<Op>, i: nat, mid: string, eventId: string)
    requires Recorded(s.box, i, mid, eventId) && NeverReissued(mid, ops)
    ensures Recorded(Run(site, s, ops).box, i, mid, eventId)
    decreases |ops|
  {
    if ops != [] {
      RecordedStep(site, s, ops[0], i, mid, eventId);
      RecordedForever(site, Apply(site, s, ops[0]), ops[1..], i, mid, eventId);
    }
  }

  /** Among arbitrary other operations: after an identified event has been applied to a message, any later
      delivery of it is ignored, as long as the provider does not give the message identifier out again. */
  lemma RepeatIsIgnoredForever(site: Site, s: Mail, w: Webhook, ops: seq<Op>, again: Webhook)
    requires w.eventId != "" && w.kind != UnknownHook && Target(s, w).Some? && Repeats(again, w)
    requires forall j :: 0 <= j < |s.box.messages| && s.box.messages[j].providerId == Strip(w.messageId) ==> Target(s, w) == Some(j)
    requires NeverReissued(Strip(w.messageId), ops)
    ensures var s' := Run(site, Ingest(site, s, w), ops); Ingest(site, s', again) == s'
  {
    var i, mid, once := Target(s, w).value, Strip(w.messageId), Ingest(site, s, w);
    IngestMarks(site, s, w);
    var kind :| once.box.events == s.box.events + [Event(i, kind, w.eventId, true)];
    SeenGrows(s.box.events, Event(i, kind, w.eventId, true), i, w.eventId);
    RecordedForever(site, once, ops, i, mid, w.eventId);
    IngestMarks(site, Run(site, once, ops), again);
  }
}
