/**
The suppression list over whole runs: one row per tenant, address and reason, every row accounted for,
and hard bounces that keep their hold until their row is removed.
 */
module MailSuppression {
  import opened Options
  import opened Strings
  import opened MailModel
  import R = SendingRisk

  // ---------------------------------------------------------------------------------------------
  // The list is well kept
  // ---------------------------------------------------------------------------------------------

  predicate SameKey(a: Suppression, b: Suppression) {
    a.tenant == b.tenant && SameAddress(a.email, b.email) && a.reason == b.reason
  }

  /** One row per tenant, address in any letter case, and reason. */
  predicate KeysUnique(rows: seq<Suppression>) {
    forall j, k :: 0 <= j < k < |rows| ==> !SameKey(rows[j], rows[k])
  }

  predicate IdsUnique(rows: seq<Suppression>) {
    forall j, k :: 0 <= j < k < |rows| ==> rows[j].id != rows[k].id
  }

  /** Hard-bounce rows block both channels, complaint rows the marketing channel only. */
  predicate ChannelsFit(reason: Reason, marketing: bool, transactional: bool) {
    (reason == HardBounce ==> marketing && transactional) && (reason == SpamComplaint ==> marketing && !transactional)
  }

  /** Stored addresses are lower-case. */
  predicate RowFits(row: Suppression) {
    Lower(row.email) == row.email && ChannelsFit(row.reason, row.marketing, row.transactional)
  }

  predicate Removed(removals: seq<Removal>, id: nat) {
    exists k :: 0 <= k < |removals| && removals[k].suppressionId == id
  }

  predicate Present(rows: seq<Suppression>, id: nat) {
    exists k :: 0 <= k < |rows| && rows[k].id == id
  }

  /** Every row ever created is either still there or has exactly one audit row. */
  ghost predicate Accounted(registry: Registry) {
    && (forall j, k :: 0 <= j < k < |registry.removals| ==> registry.removals[j].suppressionId != registry.removals[k].suppressionId)
    && (forall id: nat :: id < registry.nextId <==> Present(registry.suppressions, id) || Removed(registry.removals, id))
    && (forall id: nat :: !(Present(registry.suppressions, id) && Removed(registry.removals, id)))
  }

  ghost predicate WellKept(registry: Registry) {
    && KeysUnique(registry.suppressions) && IdsUnique(registry.suppressions) && Accounted(registry)
    && forall k :: 0 <= k < |registry.suppressions| ==> RowFits(registry.suppressions[k])
  }

  lemma LowerTwice(s: string)
    ensures Lower(Lower(s)) == Lower(s)
  {
  }

  lemma MergeKeeps(registry: Registry, k: nat, row: Suppression)
    requires WellKept(registry) && k < |registry.suppressions|
    requires var was := registry.suppressions[k];
             row.id == was.id && row.tenant == was.tenant && row.email == was.email && row.reason == was.reason
    requires RowFits(row)
    ensures WellKept(registry.(suppressions := registry.suppressions[k := row]))
  {
    var rows, rows' := registry.suppressions, registry.suppressions[k := row];
    forall id: nat
      ensures Present(rows', id) <==> Present(rows, id)
    {
      if Present(rows, id) {
        var j :| 0 <= j < |rows| && rows[j].id == id;
        assert rows'[j].id == id;
      }
      if Present(rows', id) {
        var j :| 0 <= j < |rows'| && rows'[j].id == id;
        assert rows[j].id == id;
      }
    }
  }

  lemma InsertKeeps(registry: Registry, row: Suppression)
    requires WellKept(registry) && row.id == registry.nextId && RowFits(row)
    requires forall k :: 0 <= k < |registry.suppressions| ==> !SameKey(registry.suppressions[k], row)
    ensures WellKept(registry.(suppressions := registry.suppressions + [row], nextId := registry.nextId + 1))
  {
    var rows, rows' := registry.suppressions, registry.suppressions + [row];
    assert rows'[|rows|] == row;
    forall k | 0 <= k < |rows|
      ensures rows[k].id < registry.nextId
    {
      assert Present(rows, rows[k].id);
    }
    forall id: nat
      ensures Present(rows', id) <==> Present(rows, id) || id == row.id
    {
      if Present(rows, id) {
        var j :| 0 <= j < |rows| && rows[j].id == id;
        assert rows'[j].id == id;
      }
    }
    assert !Removed(registry.removals, row.id);
  }

  lemma SuppressKeeps(registry: Registry, tenant: Option<TenantId>, email: string, reason: Reason, marketing: bool,
                      transactional: bool, metadata: Metadata)
    requires WellKept(registry) && ChannelsFit(reason, marketing, transactional)
    ensures WellKept(Suppress(registry, tenant, email, reason, marketing, transactional, metadata))
  {
    var canonical := Lower(Strip(email));
    LowerTwice(Strip(email));
    if canonical != "" {
      var found := FindRow(registry.suppressions, tenant, canonical, reason);
      if found.Some? {
        var row := registry.suppressions[found.value];
        MergeKeeps(registry, found.value,
                   row.(marketing := marketing, transactional := transactional, metadata := row.metadata + metadata));
      } else {
        InsertKeeps(registry, Suppression(registry.nextId, tenant, canonical, reason, marketing, transactional, metadata));
      }
    }
  }

  predicate IsEntry(row: Suppression, tenant: Option<TenantId>, email: string, reason: Reason, marketing: bool,
                    transactional: bool, metadata: Metadata) {
    && row.tenant == tenant && row.email == email && row.reason == reason
    && row.marketing == marketing && row.transactional == transactional
    && forall key :: key in metadata ==> key in row.metadata && row.metadata[key] == metadata[key]
  }

  /** Exactly one row has the key, and it reads as given. */
  predicate OnlyEntry(rows: seq<Suppression>, tenant: Option<TenantId>, email: string, reason: Reason, marketing: bool,
                      transactional: bool, metadata: Metadata) {
    exists k :: 0 <= k < |rows| && IsEntry(rows[k], tenant, email, reason, marketing, transactional, metadata)
                && forall j :: 0 <= j < |rows| && Matches(rows[j], tenant, email, reason) ==> j == k
  }

  /** Rows of other keys are the same. */
  ghost predicate OthersStay(rows: seq<Suppression>, rows': seq<Suppression>, tenant: Option<TenantId>, email: string,
                             reason: Reason) {
    forall row :: !Matches(row, tenant, email, reason) ==> (row in rows <==> row in rows')
  }

  /** What suppressing an address comes to: one entry for it, whatever was there before. */
  lemma SuppressMeans(registry: Registry, tenant: Option<TenantId>, email: string, reason: Reason, marketing: bool,
                      transactional: bool, metadata: Metadata)
    requires WellKept(registry)
    ensures var canonical := Lower(Strip(email));
            var after := Suppress(registry, tenant, email, reason, marketing, transactional, metadata);
            && (canonical == "" ==> after == registry)
            && (canonical != "" ==>
                  && OnlyEntry(after.suppressions, tenant, canonical, reason, marketing, transactional, metadata)
                  && OthersStay(registry.suppressions, after.suppressions, tenant, canonical, reason))
  {
    var canonical, rows := Lower(Strip(email)), registry.suppressions;
    LowerTwice(Strip(email));
    var after := Suppress(registry, tenant, email, reason, marketing, transactional, metadata).suppressions;
    var found := FindRow(rows, tenant, canonical, reason);
    var k := if found.Some? then found.value else |rows|;
    if canonical != "" {
      assert found.Some? ==> RowFits(rows[k]);
      assert IsEntry(after[k], tenant, canonical, reason, marketing, transactional, metadata);
      assert forall j :: 0 <= j < |rows| && j != k ==> after[j] == rows[j];
      if found.Some? {
        ChangedAt(rows, after, k, tenant, canonical, reason);
      }
    }
  }

  lemma ChangedAt(rows: seq<Suppression>, rows': seq<Suppression>, k: nat, tenant: Option<TenantId>, email: string, reason: Reason)
    requires |rows| == |rows'| && k < |rows| && rows' == rows[k := rows'[k]]
    requires Matches(rows[k], tenant, email, reason) && Matches(rows'[k], tenant, email, reason)
    ensures OthersStay(rows, rows', tenant, email, reason)
  {
    forall row | !Matches(row, tenant, email, reason)
      ensures row in rows <==> row in rows'
    {
      if row in rows {
        var j :| 0 <= j < |rows| && rows[j] == row;
        assert rows'[j] == row;
      }
      if row in rows' {
        var j :| 0 <= j < |rows'| && rows'[j] == row;
        assert rows[j] == row;
      }
    }
  }

  predicate Bulk(kind: R.MessageType) {
    kind == R.Marketing || kind == R.Lifecycle
  }

  /** The row alone keeps such a message from being sent; a global row that covers marketing stops every type. */
  predicate Stops(row: Suppression, tenant: TenantId, to: string, kind: R.MessageType) {
    && SameAddress(row.email, to) && (row.tenant == Some(tenant) || row.tenant == None)
    && ((row.tenant == None && row.marketing) || if Bulk(kind) then row.marketing else row.transactional)
  }

  lemma SuppressedByRow(registry: Registry, tenant: TenantId, to: string, kind: R.MessageType)
    ensures ShouldSuppress(registry, tenant, to, kind)
       <==> (Bulk(kind) && exists u :: u in registry.unsubscribes && u.0 == tenant && Lower(u.1) == Lower(to))
            || exists row :: row in registry.suppressions && Stops(row, tenant, to, kind)
  {
  }

  /** An entry decides about its own key, in both directions: a message is suppressed exactly when it is
      unsubscribed, some row of another key stops it, or the entry as given does. */
  lemma EntryDecides(registry: Registry, tenant: Option<TenantId>, email: string, reason: Reason, marketing: bool,
                     transactional: bool, metadata: Metadata, t: TenantId, to: string, kind: R.MessageType)
    requires WellKept(registry) && Lower(Strip(email)) != ""
    ensures var canonical := Lower(Strip(email));
            var entry := Suppression(0, tenant, canonical, reason, marketing, transactional, metadata);
            ShouldSuppress(Suppress(registry, tenant, email, reason, marketing, transactional, metadata), t, to, kind)
            <==> || (Bulk(kind) && exists u :: u in registry.unsubscribes && u.0 == t && Lower(u.1) == Lower(to))
                 || (exists row :: row in registry.suppressions && !Matches(row, tenant, canonical, reason)
                                   && Stops(row, t, to, kind))
                 || Stops(entry, t, to, kind)
  {
    var canonical := Lower(Strip(email));
    var after := Suppress(registry, tenant, email, reason, marketing, transactional, metadata);
    SuppressMeans(registry, tenant, email, reason, marketing, transactional, metadata);
    SuppressedByRow(after, t, to, kind);
    var k :| 0 <= k < |after.suppressions|
      && IsEntry(after.suppressions[k], tenant, canonical, reason, marketing, transactional, metadata)
      && forall j :: 0 <= j < |after.suppressions| && Matches(after.suppressions[j], tenant, canonical, reason) ==> j == k;
    assert after.suppressions[k] in after.suppressions;
  }

  /** Removing what has just been added restores the list, so every lookup answers as before. */
  lemma RemoveUndoesAdd(s: Mail, tenant: Option<TenantId>, email: string, marketing: bool, transactional: bool,
                        metadata: Metadata)
    requires WellKept(s.registry) && Lower(Strip(email)) != ""
    requires forall row :: row in s.registry.suppressions ==> !Matches(row, tenant, Lower(Strip(email)), Manual)
    ensures var after := Remove(AddManual(s, tenant, email, marketing, transactional, metadata), s.registry.nextId);
            && after.registry.suppressions == s.registry.suppressions
            && forall t, to, kind :: ShouldSuppress(after.registry, t, to, kind) == ShouldSuppress(s.registry, t, to, kind)
  {
    var rows := s.registry.suppressions;
    var added := AddManual(s, tenant, email, marketing, transactional, metadata);
    assert added.registry.suppressions[..|rows|] == rows;
    assert added.registry.suppressions[|rows|].id == s.registry.nextId;
    var after := Remove(added, s.registry.nextId);
    assert after.registry.suppressions == rows;
    forall t, to, kind
      ensures ShouldSuppress(after.registry, t, to, kind) == ShouldSuppress(s.registry, t, to, kind)
    {
      SuppressedByRow(after.registry, t, to, kind);
      SuppressedByRow(s.registry, t, to, kind);
    }
  }

  /** A row and its audit entry trade places. */
  lemma RemoveKeeps(s: Mail, id: nat)
    requires WellKept(s.registry)
    ensures WellKept(Remove(s, id).registry)
  {
    var rows := s.registry.suppressions;
    var found := FindId(rows, id);
    if found.Some? {
      var k := found.value;
      var rows' := rows[..k] + rows[k + 1..];
      RemoveRow(rows, k, id);
      var removals := s.registry.removals;
      var removal := Removal(rows[k].id, rows[k].email, rows[k].tenant, rows[k].reason, rows[k].metadata);
      assert Present(rows, id);
      forall other: nat
        ensures Removed(removals + [removal], other) <==> Removed(removals, other) || other == id
      {
        assert (removals + [removal])[|removals|].suppressionId == id;
        if Removed(removals, other) {
          var j :| 0 <= j < |removals| && removals[j].suppressionId == other;
          assert (removals + [removal])[j].suppressionId == other;
        }
      }
      forall j | 0 <= j < |removals|
        ensures removals[j].suppressionId != id
      {
        if removals[j].suppressionId == id {
          assert Removed(removals, id);
        }
      }
    }
  }

  lemma RemoveRow(rows: seq<Suppression>, k: nat, id: nat)
    requires k < |rows| && rows[k].id == id && IdsUnique(rows)
    ensures var rows' := rows[..k] + rows[k + 1..];
            && IdsUnique(rows') && (KeysUnique(rows) ==> KeysUnique(rows'))
            && (forall j :: 0 <= j < |rows'| ==> rows'[j] == rows[if j < k then j else j + 1])
            && (forall other: nat :: Present(rows', other) <==> Present(rows, other) && other != id)
  {
    var rows' := rows[..k] + rows[k + 1..];
    forall other: nat
      ensures Present(rows', other) <==> Present(rows, other) && other != id
    {
      if Present(rows, other) && other != id {
        var j :| 0 <= j < |rows| && rows[j].id == other;
        assert rows'[if j < k then j else j - 1].id == other;
      }
      if Present(rows', other) {
        var j :| 0 <= j < |rows'| && rows'[j].id == other;
        assert rows[if j < k then j else j + 1].id == other;
      }
    }
  }

  /** What an operation does to the list, if anything. */
  lemma RegistryStep(site: Site, s: Mail, op: Op)
    requires WellKept(s.registry)
    ensures WellKept(Apply(site, s, op).registry)
  {
    match op
    case WebhookOp(w) => HookKeeps(site, s, w);
    case AddManualOp(tenant, email, marketing, transactional, metadata) =>
      SuppressKeeps(s.registry, tenant, email, Manual, marketing, transactional, metadata);
    case RemoveOp(id) => RemoveKeeps(s, id);
    case UnsubscribeOp(who, email) =>
      assert Apply(site, s, op).registry.suppressions == s.registry.suppressions;
    case _ =>
  }

  /** The one call a webhook may make on the list. */
  lemma HookRegistry(site: Site, s: Mail, w: Webhook)
    ensures Ingest(site, s, w).registry == s.registry
         || (Target(s, w).Some? && var m := s.box.messages[Target(s, w).value];
             || (IsHardBounce(w) && Ingest(site, s, w).registry
                 == Suppress(s.registry, Some(m.tenant), HookAddress(m, w), HardBounce, true, true, HookMetadata(w, "reason", w.reason)))
             || Ingest(site, s, w).registry
                == Suppress(s.registry, Some(m.tenant), HookAddress(m, w), SpamComplaint, true, false,
                            HookMetadata(w, "feedback_type", Cut(OrElse(w.reason, "spam"), 256))))
  {
    if Target(s, w).Some? {
      var i := Target(s, w).value;
      match w.kind
      case BouncedHook => BounceRegistry(site, s, i, w);
      case ComplainedHook => ComplaintRegistry(site, s, i, w);
      case _ =>
    }
  }

  lemma BounceRegistry(site: Site, s: Mail, i: nat, w: Webhook)
    requires i < |s.box.messages|
    ensures var m := s.box.messages[i];
            OnBounce(site, s, i, w).registry
            == if w.bounceType != "hard" then s.registry
               else Suppress(s.registry, Some(m.tenant), HookAddress(m, w), HardBounce, true, true,
                             HookMetadata(w, "reason", w.reason))
  {
  }

  lemma ComplaintRegistry(site: Site, s: Mail, i: nat, w: Webhook)
    requires i < |s.box.messages|
    ensures var m := s.box.messages[i];
            OnComplaint(site, s, i, w).registry
            == Suppress(s.registry, Some(m.tenant), HookAddress(m, w), SpamComplaint, true, false,
                        HookMetadata(w, "feedback_type", Cut(OrElse(w.reason, "spam"), 256)))
  {
  }

  predicate IsHardBounce(w: Webhook) {
    w.kind == BouncedHook && w.bounceType == "hard"
  }

  lemma HookKeeps(site: Site, s: Mail, w: Webhook)
    requires WellKept(s.registry)
    ensures WellKept(Ingest(site, s, w).registry)
  {
    HookRegistry(site, s, w);
    if Target(s, w).Some? {
      var m := s.box.messages[Target(s, w).value];
      SuppressKeeps(s.registry, Some(m.tenant), HookAddress(m, w), HardBounce, true, true, HookMetadata(w, "reason", w.reason));
      SuppressKeeps(s.registry, Some(m.tenant), HookAddress(m, w), SpamComplaint, true, false,
                    HookMetadata(w, "feedback_type", Cut(OrElse(w.reason, "spam"), 256)));
    }
  }

  /** In every run the list is well kept. */
  lemma {:induction false} ListIsWellKept(site: Site, s: Mail, ops: seq<Op>)
    requires WellKept(s.registry)
    ensures WellKept(Run(site, s, ops).registry)
    decreases |ops|
  {
    if ops != [] {
      RegistryStep(site, s, ops[0]);
      ListIsWellKept(site, Apply(site, s, ops[0]), ops[1..]);
    }
  }

  // ---------------------------------------------------------------------------------------------
  // Hard bounces hold
  // ---------------------------------------------------------------------------------------------

  /** Row `id` is a hard bounce of the tenant for the address. */
  predicate HoldsAt(rows: seq<Suppression>, k: nat, id: nat, tenant: TenantId, address: string) {
    k < |rows| && rows[k].id == id && rows[k].tenant == Some(tenant) && SameAddress(rows[k].email, address)
    && rows[k].reason == HardBounce && rows[k].marketing && rows[k].transactional
  }

  predicate Holds(registry: Registry, id: nat, tenant: TenantId, address: string) {
    exists k :: 0 <= k < |registry.suppressions| && HoldsAt(registry.suppressions, k, id, tenant, address)
  }

  lemma SuppressKeepsHold(registry: Registry, id: nat, holder: TenantId, address: string,
                          tenant: Option<TenantId>, email: string, reason: Reason, marketing: bool, transactional: bool,
                          metadata: Metadata)
    requires Holds(registry, id, holder, address) && (reason == HardBounce ==> marketing && transactional)
    ensures Holds(Suppress(registry, tenant, email, reason, marketing, transactional, metadata), id, holder, address)
  {
    var k :| 0 <= k < |registry.suppressions| && HoldsAt(registry.suppressions, k, id, holder, address);
    var after := Suppress(registry, tenant, email, reason, marketing, transactional, metadata);
    assert HoldsAt(after.suppressions, k, id, holder, address);
  }

  lemma RemoveKeepsHold(s: Mail, other: nat, id: nat, holder: TenantId, address: string)
    requires Holds(s.registry, id, holder, address) && other != id
    ensures Holds(Remove(s, other).registry, id, holder, address)
  {
    var rows := s.registry.suppressions;
    var k :| 0 <= k < |rows| && HoldsAt(rows, k, id, holder, address);
    var found := FindId(rows, other);
    if found.Some? {
      var k' := if k < found.value then k else k - 1;
      assert HoldsAt(rows[..found.value] + rows[found.value + 1..], k', id, holder, address);
    }
  }

  lemma HoldStep(site: Site, s: Mail, op: Op, id: nat, holder: TenantId, address: string)
    requires Holds(s.registry, id, holder, address) && op != RemoveOp(id)
    ensures Holds(Apply(site, s, op).registry, id, holder, address)
  {
    match op
    case WebhookOp(w) =>
      HookRegistry(site, s, w);
      if Target(s, w).Some? {
        var m := s.box.messages[Target(s, w).value];
        SuppressKeepsHold(s.registry, id, holder, address, Some(m.tenant), HookAddress(m, w), HardBounce, true, true,
                          HookMetadata(w, "reason", w.reason));
        SuppressKeepsHold(s.registry, id, holder, address, Some(m.tenant), HookAddress(m, w), SpamComplaint, true, false,
                          HookMetadata(w, "feedback_type", Cut(OrElse(w.reason, "spam"), 256)));
      }
    case AddManualOp(tenant, email, marketing, transactional, metadata) =>
      SuppressKeepsHold(s.registry, id, holder, address, tenant, email, Manual, marketing, transactional, metadata);
    case RemoveOp(other) => RemoveKeepsHold(s, other, id, holder, address);
    case UnsubscribeOp(who, email) =>
      assert Apply(site, s, op).registry.suppressions == s.registry.suppressions;
    case _ =>
  }

  lemma {:induction false} HoldForever(site: Site, s: Mail, ops: seq<Op>, id: nat, holder: TenantId, address: string)
    requires Holds(s.registry, id, holder, address) && forall k :: 0 <= k < |ops| ==> ops[k] != RemoveOp(id)
    ensures Holds(Run(site, s, ops).registry, id, holder, address)
    decreases |ops|
  {
    if ops != [] {
      HoldStep(site, s, ops[0], id, holder, address);
      HoldForever(site, Apply(site, s, ops[0]), ops[1..], id, holder, address);
    }
  }

  /** The row a hard bounce merges into, or else the next number to be given out. */
  function HoldId(s: Mail, w: Webhook): nat
    requires Target(s, w).Some?
  {
    var m := s.box.messages[Target(s, w).value];
    var found := FindRow(s.registry.suppressions, Some(m.tenant), Lower(Strip(HookAddress(m, w))), HardBounce);
    if found.Some? then s.registry.suppressions[found.value].id else s.registry.nextId
  }

  /** Applying a hard bounce leaves a holding row, new or merged, unless the address is blank. */
  lemma HardBounceTakesHold(site: Site, s: Mail, w: Webhook)
    requires IsHardBounce(w) && Target(s, w).Some?
    requires Strip(HookAddress(s.box.messages[Target(s, w).value], w)) != ""
    ensures var m := s.box.messages[Target(s, w).value];
            Holds(Ingest(site, s, w).registry, HoldId(s, w), m.tenant, Strip(HookAddress(m, w)))
  {
    var m := s.box.messages[Target(s, w).value];
    var canonical := Lower(Strip(HookAddress(m, w)));
    LowerTwice(Strip(HookAddress(m, w)));
    var found := FindRow(s.registry.suppressions, Some(m.tenant), canonical, HardBounce);
    var rows := Ingest(site, s, w).registry.suppressions;
    var k := if found.Some? then found.value else |s.registry.suppressions|;
    assert HoldsAt(rows, k, HoldId(s, w), m.tenant, Strip(HookAddress(m, w)));
  }

  lemma HoldSuppresses(registry: Registry, id: nat, tenant: TenantId, address: string, to: string, kind: R.MessageType)
    requires Holds(registry, id, tenant, address) && SameAddress(address, to)
    ensures ShouldSuppress(registry, tenant, to, kind)
  {
  }

  // ---------------------------------------------------------------------------------------------
  // Main results
  // ---------------------------------------------------------------------------------------------

  /** After a hard bounce, through any run of operations that does not remove its row, every message of
      every type to that address, in any letter case, is created SUPPRESSED if it is created at all. */
  lemma {:induction false} HardBounceHolds(site: Site, s: Mail, w: Webhook, ops: seq<Op>, r: Request)
    requires IsHardBounce(w) && Target(s, w).Some?
    requires Strip(HookAddress(s.box.messages[Target(s, w).value], w)) != ""
    requires forall k :: 0 <= k < |ops| ==> ops[k] != RemoveOp(HoldId(s, w))
    requires r.tenant == s.box.messages[Target(s, w).value].tenant
    requires SameAddress(Strip(HookAddress(s.box.messages[Target(s, w).value], w)), r.to)
    ensures CreatedSuppressed(Run(site, Ingest(site, s, w), ops), r)
  {
    var address := Strip(HookAddress(s.box.messages[Target(s, w).value], w));
    HardBounceTakesHold(site, s, w);
    HoldForever(site, Ingest(site, s, w), ops, HoldId(s, w), r.tenant, address);
    HoldSuppresses(Run(site, Ingest(site, s, w), ops).registry, HoldId(s, w), r.tenant, address, r.to, r.kind);
  }

  lemma UnsubscribesGrow(site: Site, s: Mail, op: Op)
    ensures s.registry.unsubscribes <= Apply(site, s, op).registry.unsubscribes
  {
    if op.WebhookOp? {
      HookRegistry(site, s, op.webhook);
    }
  }

  lemma {:induction false} UnsubscribesStay(site: Site, s: Mail, ops: seq<Op>)
    ensures s.registry.unsubscribes <= Run(site, s, ops).registry.unsubscribes
    decreases |ops|
  {
    if ops != [] {
      UnsubscribesGrow(site, s, ops[0]);
      UnsubscribesStay(site, Apply(site, s, ops[0]), ops[1..]);
    }
  }

  /** After an unsubscribe, through any run, every marketing or lifecycle message of that tenant to the address, in
      any letter case, is created SUPPRESSED if it is created at all. */
  lemma UnsubscribeHolds(site: Site, s: Mail, who: TenantId, email: string, ops: seq<Op>, r: Request)
    requires r.tenant == who && (r.kind == R.Marketing || r.kind == R.Lifecycle) && Lower(r.to) == Lower(email)
    ensures CreatedSuppressed(Run(site, Apply(site, s, UnsubscribeOp(who, email)), ops), r)
  {
    var after := Apply(site, s, UnsubscribeOp(who, email));
    UnsubscribesStay(site, after, ops);
    assert (who, email) in Run(site, after, ops).registry.unsubscribes;
  }

  /** And it stops nothing else: exactly the marketing and lifecycle mail of that tenant to that address is newly
      suppressed. */
  lemma UnsubscribeStopsExactly(site: Site, s: Mail, who: TenantId, email: string, t: TenantId, to: string, kind: R.MessageType)
    ensures ShouldSuppress(Apply(site, s, UnsubscribeOp(who, email)).registry, t, to, kind)
       <==> ShouldSuppress(s.registry, t, to, kind)
            || (t == who && Lower(to) == Lower(email) && (kind == R.Marketing || kind == R.Lifecycle))
  {
    var before, after := s.registry, Apply(site, s, UnsubscribeOp(who, email)).registry;
    assert (who, email) in after.unsubscribes;
    assert forall u :: u in after.unsubscribes <==> u in before.unsubscribes || u == (who, email);
  }

  predicate CreatedSuppressed(s: Mail, r: Request) {
    Create(s, r) == s
    || (|Create(s, r).box.messages| == |s.box.messages| + 1
        && Create(s, r).box.messages[|s.box.messages|].status == Suppressed)
  }

  /** From an empty database, at every point of every run: one row per key, hard bounces block both
      channels, and removed rows have exactly one audit row each. */
  lemma ListIsAlwaysWellKept(site: Site, ops: seq<Op>)
    ensures WellKept(Run(site, EMPTY, ops).registry)
  {
    ListIsWellKept(site, EMPTY, ops);
  }

  /** One row goes, all others stay in place, and one audit row records what it said. */
  predicate Traded(before: Registry, after: Registry, id: nat) {
    exists k :: 0 <= k < |before.suppressions| && before.suppressions[k].id == id
      && var row := before.suppressions[k];
         && after.suppressions == before.suppressions[..k] + before.suppressions[k + 1..]
         && after.removals == before.removals + [Removal(row.id, row.email, row.tenant, row.reason, row.metadata)]
  }

  /** A removal that finds its row trades exactly that row for its first and only audit row. */
  lemma RemovalIsAudited(site: Site, ops: seq<Op>, id: nat)
    requires Present(Run(site, EMPTY, ops).registry.suppressions, id)
    ensures var before := Run(site, EMPTY, ops).registry;
            var after := Remove(Run(site, EMPTY, ops), id).registry;
            && Traded(before, after, id) && WellKept(after)
            && !Present(after.suppressions, id) && !Removed(before.removals, id)
  {
    ListIsAlwaysWellKept(site, ops);
    var s := Run(site, EMPTY, ops);
    RemovalTrades(s, id);
    RemoveKeeps(s, id);
  }

  lemma RemovalTrades(s: Mail, id: nat)
    requires WellKept(s.registry) && Present(s.registry.suppressions, id)
    ensures Traded(s.registry, Remove(s, id).registry, id) && !Present(Remove(s, id).registry.suppressions, id)
  {
    var rows := s.registry.suppressions;
    var k := FindId(rows, id).value;
    RemoveRow(rows, k, id);
    assert rows[k].id == id;
  }
}
