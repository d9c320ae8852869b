/**
Moving and deleting workflow steps.  Both rewrite the `order` column row by row inside one transaction,
and the table's unique constraint on (workflow, order) is checked at every single write.
 */
module StepOrder {

  type StepId = nat

  datatype Row = Row(id: StepId, order: nat)

  datatype Outcome = Done | NoSuchStep | IntegrityError

  function Ids(listing: seq<Row>): set<StepId> {
    set r | r in listing :: r.id
  }

  predicate DistinctIds(listing: seq<Row>) {
    forall i, j :: 0 <= i < j < |listing| ==> listing[i].id != listing[j].id
  }

  predicate Ascending(listing: seq<Row>) {
    forall i, j :: 0 <= i < j < |listing| ==> listing[i].order < listing[j].order
  }

  /** The listing shows every row of the table once, with its current order. */
  predicate Shows(orders: map<StepId, nat>, listing: seq<Row>) {
    && DistinctIds(listing) && Ids(listing) == orders.Keys
    && forall i :: 0 <= i < |listing| ==> listing[i].id in orders && orders[listing[i].id] == listing[i].order
  }

  /** The unique constraint. */
  predicate OrdersUnique(orders: map<StepId, nat>) {
    forall a, b :: a in orders && b in orders && a != b ==> orders[a] != orders[b]
  }

  predicate Free(orders: map<StepId, nat>, id: StepId, order: nat) {
    forall other :: other in orders && other != id ==> orders[other] != order
  }

  /** The table holds exactly the listed rows, numbered 1..n along the listing. */
  predicate NumberedBy(orders: map<StepId, nat>, listing: seq<Row>) {
    && Ids(listing) == orders.Keys
    && forall i :: 0 <= i < |listing| ==> listing[i].id in orders && orders[listing[i].id] == i + 1
  }

  /** No row has to take a number that a row further down the listing still holds. */
  predicate NoCollision(listing: seq<Row>) {
    forall i :: 0 <= i < |listing| ==> listing[i].order == 0 || listing[i].order > i
  }

  /** Number m + 1 is not held by any row below the m-th. */
  predicate NumberFree(listing: seq<Row>, m: nat) {
    forall j :: m < j < |listing| ==> listing[j].order != m + 1
  }

  predicate FreeUpTo(listing: seq<Row>, n: nat) {
    forall m :: 0 <= m < n ==> NumberFree(listing, m)
  }

  function Clamp(position: int, n: nat): int {
    var capped := if position < n then position else n;
    if capped > 1 then capped else 1
  }

  /** The listing with the k-th row taken out. */
  function Others(listing: seq<Row>, k: nat): seq<Row>
    requires k < |listing|
  {
    listing[..k] + listing[k + 1..]
  }

  /** The listing with the k-th row taken out and put back at a 1-based position. */
  function Moved(listing: seq<Row>, k: nat, position: int): (target: seq<Row>)
    requires k < |listing| && 1 <= position <= |listing|
    ensures |target| == |listing| && target[position - 1] == listing[k]
  {
    Others(listing, k)[..position - 1] + [listing[k]] + Others(listing, k)[position - 1..]
  }

  class StepTable {
    var orders: map<StepId, nat>

    constructor (orders: map<StepId, nat>)
      ensures this.orders == orders
    {
      this.orders := orders;
    }

    /** `list(WorkflowStep.objects.filter(workflow=workflow).order_by("order"))` */
    method ListByOrder() returns (listing: seq<Row>)
      requires OrdersUnique(orders)
      ensures Shows(orders, listing) && Ascending(listing)
    {
      listing := [];
      var left := orders.Keys;
      while left != {}
        invariant left <= orders.Keys && SortedApart(orders, listing, left)
        decreases left
      {
        LeastExists(orders, left);
        var id :| id in left && forall other :: other in left ==> orders[id] <= orders[other];
        SortedSnoc(orders, listing, left, id);
        listing := listing + [Row(id, orders[id])];
        left := left - {id};
      }
    }

    /** `filter(pk=id).update(order=order)`, refused when another row holds that order. */
    method UpdateOrder(id: StepId, order: nat) returns (ok: bool)
      requires id in orders
      modifies this
      ensures ok <==> Free(old(orders), id, order)
      ensures orders == if ok then old(orders)[id := order] else old(orders)
      ensures old(OrdersUnique(orders)) ==> OrdersUnique(orders)
    {
      ok := forall other :: other in orders && other != id ==> orders[other] != order;
      if ok {
        orders := orders[id := order];
      }
    }

    /** The loop both operations share: number the rows 1..n along `listing`, skipping rows that fit. */
    method Renumber(listing: seq<Row>) returns (ok: bool)
      requires Shows(orders, listing) && OrdersUnique(orders)
      modifies this
      ensures ok <==> NoCollision(listing)
      ensures ok ==> NumberedBy(orders, listing) && OrdersUnique(orders)
    {
      CollisionFreeNumbers(listing);
      for i := 0 to |listing|
        invariant Numbering(orders, listing, i) && OrdersUnique(orders)
        invariant FreeUpTo(listing, i)
      {
        FreeAlong(orders, listing, i);
        NumberingSnoc(orders, listing, i);
        var row := listing[i];
        if row.order != i + 1 {
          ok := UpdateOrder(row.id, i + 1);
          if !ok {
            return false;
          }
        }
      }
      return true;
    }

    /** Moves a step to a 1-based position.  An error rolls the whole transaction back.  The ghost results
        are the listing the method worked on and the step's index in it. */
    method ApplyStepOrder(id: StepId, newOrder: int) returns (outcome: Outcome, ghost listing: seq<Row>, ghost k: nat)
      requires OrdersUnique(orders)
      modifies this
      ensures Shows(old(orders), listing) && Ascending(listing) && OrdersUnique(orders)
      ensures listing == [] ==> outcome == Done
      ensures listing != [] ==> (outcome == NoSuchStep <==> id !in old(orders))
      ensures id in old(orders) ==> k < |listing| && listing[k].id == id
      ensures id in old(orders) ==>
                var target := Moved(listing, k, Clamp(newOrder, |listing|));
                && (outcome == Done <==> NoCollision(target))
                && (outcome == Done ==> NumberedBy(orders, target))
      ensures outcome != Done || listing == [] ==> orders == old(orders)
    {
      var before := orders;
      var steps := ListByOrder();
      listing, k := steps, 0;
      var n := |steps|;
      if n == 0 {
        return Done, listing, k;
      }
      var position := Clamp(newOrder, n);
      if id !in orders {
        return NoSuchStep, listing, k;
      }
      var at := IndexOf(steps, id);
      k := at;
      FilterIsOthers(steps, at);
      var moving := steps[at];
      var rest := Filter(steps, id);
      rest := rest[..position - 1] + [moving] + rest[position - 1..];
      MovedShows(before, steps, at, position);
      var ok := Renumber(rest);
      if !ok {
        orders := before;
        return IntegrityError, listing, k;
      }
      return Done, listing, k;
    }

    /** Deletes a step and closes the gap.  An error rolls the deletion back, too. */
    method DeleteStepAndRenumber(id: StepId) returns (outcome: Outcome, ghost listing: seq<Row>)
      requires OrdersUnique(orders)
      modifies this
      ensures Shows(old(orders) - {id}, listing) && Ascending(listing) && OrdersUnique(orders)
      ensures outcome == Done ==> NumberedBy(orders, listing)
      ensures outcome != Done ==> outcome == IntegrityError && orders == old(orders)
      // The exact condition: the rows that stay must not hold both order 0 and order 1.
      ensures outcome == Done <==> !(Holds(old(orders) - {id}, 0) && Holds(old(orders) - {id}, 1))
    {
      var before := orders;
      orders := orders - {id};
      var steps := ListByOrder();
      listing := steps;
      HeldIsListed(orders, listing, 0);
      HeldIsListed(orders, listing, 1);
      AscendingCollides(listing);
      var ok := Renumber(steps);
      if !ok {
        orders := before;
        return IntegrityError, listing;
      }
      return Done, listing;
    }
  }

  /** The table after the first i writes. */
  predicate Numbering(orders: map<StepId, nat>, listing: seq<Row>, i: nat) {
    && DistinctIds(listing) && Ids(listing) == orders.Keys
    && (forall j :: 0 <= j < |listing| ==> listing[j].id in orders)
    && (forall j :: 0 <= j < |listing| ==> orders[listing[j].id] == if j < i then j + 1 else listing[j].order)
  }

  lemma CollisionFreeNumbers(listing: seq<Row>)
    ensures NoCollision(listing) <==> FreeUpTo(listing, |listing|)
  {
    if !NoCollision(listing) {
      var i :| 0 <= i < |listing| && !(listing[i].order == 0 || listing[i].order > i);
      assert !NumberFree(listing, listing[i].order - 1);
    }
  }

  predicate Holds(orders: map<StepId, nat>, order: nat) {
    exists id :: id in orders && orders[id] == order
  }

  predicate Lists(listing: seq<Row>, order: nat) {
    exists i :: 0 <= i < |listing| && listing[i].order == order
  }

  /** `[s for s in steps if s.id != step.id]` */
  function Filter(listing: seq<Row>, id: StepId): seq<Row> {
    if listing == [] then []
    else if listing[0].id == id then Filter(listing[1..], id) else [listing[0]] + Filter(listing[1..], id)
  }

  // ---------------------------------------------------------------------------------------------
  // Supporting lemmas
  // ---------------------------------------------------------------------------------------------

  lemma {:induction false} LeastExists(orders: map<StepId, nat>, left: set<StepId>)
    requires left != {} && left <= orders.Keys
    ensures exists id :: id in left && forall other :: other in left ==> orders[id] <= orders[other]
    decreases left
  {
    var x :| x in left;
    if left != {x} {
      LeastExists(orders, left - {x});
      var y :| y in left - {x} && forall other :: other in left - {x} ==> orders[y] <= orders[other];
      var least := if orders[x] <= orders[y] then x else y;
      assert forall other :: other in left ==> orders[least] <= orders[other];
    }
  }

  /** The rows with the smallest orders have been listed, all but those in `left`. */
  ghost predicate SortedApart(orders: map<StepId, nat>, listing: seq<Row>, left: set<StepId>) {
    && (forall i :: 0 <= i < |listing| ==>
          listing[i].id in orders && orders[listing[i].id] == listing[i].order && listing[i].id !in left)
    && Ids(listing) == orders.Keys - left
    && DistinctIds(listing) && Ascending(listing)
    && forall i, id :: 0 <= i < |listing| && id in left && id in orders ==> listing[i].order < orders[id]
  }

  lemma SortedSnoc(orders: map<StepId, nat>, listing: seq<Row>, left: set<StepId>, id: StepId)
    requires OrdersUnique(orders) && left <= orders.Keys && SortedApart(orders, listing, left)
    requires id in left && forall other :: other in left ==> orders[id] <= orders[other]
    ensures SortedApart(orders, listing + [Row(id, orders[id])], left - {id})
  {
    IdsSnoc(listing, Row(id, orders[id]));
  }

  lemma IdsSnoc(listing: seq<Row>, row: Row)
    ensures Ids(listing + [row]) == Ids(listing) + {row.id}
  {
  }

  method IndexOf(listing: seq<Row>, id: StepId) returns (k: nat)
    requires id in Ids(listing)
    ensures k < |listing| && listing[k].id == id
  {
    k := 0;
    while listing[k].id != id
      invariant k < |listing|
      invariant forall i :: 0 <= i < k ==> listing[i].id != id
      decreases |listing| - k
    {
      var r :| r in listing && r.id == id;
      k := k + 1;
    }
  }

  /** At the i-th write, number i + 1 is free exactly when no row further down still holds it. */
  lemma FreeAlong(orders: map<StepId, nat>, listing: seq<Row>, i: nat)
    requires Numbering(orders, listing, i) && i < |listing|
    ensures Free(orders, listing[i].id, i + 1) <==> NumberFree(listing, i)
  {
  }

  /** The i-th write, or a row that fits already, takes the numbering one row further. */
  lemma NumberingSnoc(orders: map<StepId, nat>, listing: seq<Row>, i: nat)
    requires Numbering(orders, listing, i) && OrdersUnique(orders) && i < |listing|
    ensures Numbering(orders[listing[i].id := i + 1], listing, i + 1)
    ensures listing[i].order == i + 1 ==> Numbering(orders, listing, i + 1) && NumberFree(listing, i)
  {
  }

  lemma {:induction false} FilterConcat(a: seq<Row>, b: seq<Row>, id: StepId)
    ensures Filter(a + b, id) == Filter(a, id) + Filter(b, id)
  {
    if a == [] {
      assert a + b == b;
    } else {
      assert (a + b)[1..] == a[1..] + b;
      FilterConcat(a[1..], b, id);
    }
  }

  predicate Absent(listing: seq<Row>, id: StepId) {
    forall i :: 0 <= i < |listing| ==> listing[i].id != id
  }

  lemma {:induction false} FilterAbsent(listing: seq<Row>, id: StepId)
    requires Absent(listing, id)
    ensures Filter(listing, id) == listing
  {
    if listing != [] {
      FilterAbsent(listing[1..], id);
    }
  }

  lemma FilterAround(before: seq<Row>, row: Row, after: seq<Row>)
    requires Absent(before, row.id) && Absent(after, row.id)
    ensures Filter(before + ([row] + after), row.id) == before + after
  {
    FilterConcat(before, [row] + after, row.id);
    FilterAbsent(before, row.id);
    FilterAbsent(after, row.id);
    assert ([row] + after)[1..] == after;
  }

  lemma OthersAreAbsent(listing: seq<Row>, k: nat)
    requires DistinctIds(listing) && k < |listing|
    ensures Absent(listing[..k], listing[k].id) && Absent(listing[k + 1..], listing[k].id)
  {
  }

  lemma SplitAt(listing: seq<Row>, k: nat)
    requires k < |listing|
    ensures listing == listing[..k] + ([listing[k]] + listing[k + 1..])
  {
  }

  lemma FilterIsOthers(listing: seq<Row>, k: nat)
    requires DistinctIds(listing) && k < |listing|
    ensures Filter(listing, listing[k].id) == Others(listing, k)
  {
    var before, row, after := listing[..k], listing[k], listing[k + 1..];
    OthersAreAbsent(listing, k);
    FilterAround(before, row, after);
    SplitAt(listing, k);
  }

  /** Where the rows of a moved listing come from. */
  function Origin(k: nat, position: int, i: nat): int {
    if i == position - 1 then k
    else
      var r := if i < position - 1 then i else i - 1;
      if r < k then r else r + 1
  }

  lemma MovedAt(listing: seq<Row>, k: nat, position: int, i: nat)
    requires k < |listing| && 1 <= position <= |listing| && i < |listing|
    ensures 0 <= Origin(k, position, i) < |listing|
    ensures Moved(listing, k, position)[i] == listing[Origin(k, position, i)]
  {
  }

  /** Where a row of the listing goes. */
  function Target(k: nat, position: int, j: nat): int {
    if j == k then position - 1
    else
      var m := if j < k then j else j - 1;
      if m < position - 1 then m else m + 1
  }

  lemma MovedIds(listing: seq<Row>, k: nat, position: int)
    requires k < |listing| && 1 <= position <= |listing|
    ensures Ids(Moved(listing, k, position)) == Ids(listing)
  {
    var target := Moved(listing, k, position);
    forall r | r in target
      ensures r in listing
    {
      var i: nat :| i < |target| && target[i] == r;
      MovedAt(listing, k, position, i);
    }
    forall r | r in listing
      ensures r in target
    {
      var j: nat :| j < |listing| && listing[j] == r;
      MovedAt(listing, k, position, Target(k, position, j));
    }
  }

  /** A move shows the same rows, each once. */
  lemma MovedShows(orders: map<StepId, nat>, listing: seq<Row>, k: nat, position: int)
    requires Shows(orders, listing) && k < |listing| && 1 <= position <= |listing|
    ensures Shows(orders, Moved(listing, k, position))
  {
    var target := Moved(listing, k, position);
    MovedIds(listing, k, position);
    MovedDistinct(listing, k, position);
    forall i: nat | i < |target|
      ensures target[i].id in orders && orders[target[i].id] == target[i].order
    {
      MovedAt(listing, k, position, i);
      ShownAt(orders, listing, Origin(k, position, i));
    }
  }

  lemma ShownAt(orders: map<StepId, nat>, listing: seq<Row>, j: nat)
    requires Shows(orders, listing) && j < |listing|
    ensures listing[j].id in orders && orders[listing[j].id] == listing[j].order
  {
  }

  /** Taking the moved row out again leaves the same listing: all other rows keep their relative order. */
  lemma MovedKeepsOthers(listing: seq<Row>, k: nat, position: int)
    requires k < |listing| && 1 <= position <= |listing|
    ensures Others(Moved(listing, k, position), position - 1) == Others(listing, k)
  {
  }

  lemma MovedDistinct(listing: seq<Row>, k: nat, position: int)
    requires DistinctIds(listing) && k < |listing| && 1 <= position <= |listing|
    ensures DistinctIds(Moved(listing, k, position))
  {
    var target := Moved(listing, k, position);
    forall i, j | 0 <= i < j < |target|
      ensures target[i].id != target[j].id
    {
      MovedAt(listing, k, position, i);
      MovedAt(listing, k, position, j);
      assert Origin(k, position, i) != Origin(k, position, j);
    }
  }

  lemma HeldIsListed(orders: map<StepId, nat>, listing: seq<Row>, order: nat)
    requires Shows(orders, listing)
    ensures Holds(orders, order) <==> Lists(listing, order)
  {
  }

  /** Along an ascending listing orders grow by at least one per row. */
  lemma {:induction false} AscendingGrows(listing: seq<Row>, lo: nat, hi: nat)
    requires Ascending(listing) && lo <= hi < |listing|
    ensures listing[hi].order >= listing[lo].order + (hi - lo)
    decreases hi
  {
    if lo < hi {
      AscendingGrows(listing, lo, hi - 1);
    }
  }

  /** Renumbering in ascending order collides exactly when both order 0 and order 1 are taken. */
  lemma AscendingCollides(listing: seq<Row>)
    requires Ascending(listing)
    ensures NoCollision(listing) <==> !(Lists(listing, 0) && Lists(listing, 1))
  {
    forall i | 0 <= i < |listing|
      ensures listing[i].order >= listing[0].order + i
      ensures i >= 1 ==> listing[i].order >= listing[1].order + (i - 1)
    {
      AscendingGrows(listing, 0, i);
      if i >= 1 {
        AscendingGrows(listing, 1, i);
      }
    }
  }

  /** The position a move asks for, or the nearest end of the list. */
  lemma ClampIsNearest(position: int, n: nat)
    requires n > 0
    ensures 1 <= Clamp(position, n) <= n
    ensures 1 <= position <= n ==> Clamp(position, n) == position
    ensures position < 1 ==> Clamp(position, n) == 1
    ensures position > n ==> Clamp(position, n) == n
  {
  }

  /** Where every row of the listing ends up: the moved one at its position, those between the two places one further
      towards the gap, all others where they were. */
  lemma MovedRowsShift(listing: seq<Row>, k: nat, position: int, j: nat)
    requires k < |listing| && 1 <= position <= |listing| && j < |listing|
    ensures var target := Moved(listing, k, position);
            && (j == k ==> target[position - 1] == listing[j])
            && (k < j <= position - 1 ==> target[j - 1] == listing[j])
            && (position - 1 <= j < k ==> target[j + 1] == listing[j])
            && ((j < k && j < position - 1) || (j > k && j > position - 1) ==> target[j] == listing[j])
  {
  }

  // ---------------------------------------------------------------------------------------------
  // Moves on a compact list
  // ---------------------------------------------------------------------------------------------

  predicate Compact(listing: seq<Row>) {
    forall i :: 0 <= i < |listing| ==> listing[i].order == i + 1
  }

  /** On a list already numbered 1..n, which is what deletion leaves behind, no real move can be written:
      the row-by-row writes hit the unique constraint unless the step already stands at the position. */
  lemma CompactMoveCollides(listing: seq<Row>, k: nat, position: int)
    requires Compact(listing) && k < |listing| && 1 <= position <= |listing|
    ensures NoCollision(Moved(listing, k, position)) <==> position == listing[k].order
  {
    var target := Moved(listing, k, position);
    if position <= k {
      MovedAt(listing, k, position, position);
      assert target[position].order == position;
    } else if position == k + 1 {
      assert target == listing;
    }
  }
}
