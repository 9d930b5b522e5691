/** Production orders: materialising an order and its operations from a
    product and a route, and the field and status updates applied to it. */
module ProductionOrders {
  import opened Common

  datatype OrderStatus = Planned | Released | InProgress | Paused | Completed | Canceled

  datatype Priority = Low | Normal | High | Urgent

  datatype OperationStatus = Pending | Ready | InProgress | Paused | Completed | Skipped

  /** One step of a route template. */
  datatype RouteOperation = RouteOperation(
    id: Id,
    routeId: Id,
    sequence: int,
    name: string,
    workCenterId: Option<Id>,
    machineId: Option<Id>,
    standardTimeMinutes: Option<real>)

  /** One step of an order, copied from a route operation. */
  datatype OrderOperation = OrderOperation(
    routeOperationId: Option<Id>,
    sequence: int,
    name: string,
    workCenterId: Option<Id>,
    machineId: Option<Id>,
    standardTimeMinutes: Option<real>,
    status: OperationStatus,
    actualStart: Option<Timestamp>,
    actualEnd: Option<Timestamp>,
    quantityGood: Option<real>,
    quantityScrap: Option<real>,
    notes: Option<string>)

  /** A production order with the operations it owns; `deleted` is the
      soft-delete mark. */
  datatype ProductionOrder = ProductionOrder(
    id: Id,
    code: string,
    externalCode: Option<string>,
    productId: Id,
    routeId: Id,
    quantityPlanned: real,
    quantityProduced: real,
    unitOfMeasure: string,
    status: OrderStatus,
    priority: Priority,
    mainWorkCenterId: Option<Id>,
    shiftId: Option<Id>,
    plannedStartDate: Option<Timestamp>,
    plannedEndDate: Option<Timestamp>,
    actualStartDate: Option<Timestamp>,
    actualEndDate: Option<Timestamp>,
    dueDate: Option<Timestamp>,
    notes: Option<string>,
    operations: seq<OrderOperation>,
    deleted: bool)

  datatype CreateProductionOrderDto = CreateProductionOrderDto(
    code: string,
    externalCode: Option<string>,
    productId: Id,
    routeId: Id,
    quantityPlanned: real,
    priority: Option<Priority>,
    mainWorkCenterId: Option<Id>,
    shiftId: Option<Id>,
    plannedStartDate: Option<Timestamp>,
    plannedEndDate: Option<Timestamp>,
    dueDate: Option<Timestamp>,
    notes: Option<string>)

  /** Every field optional; `productId` and `routeId` are accepted but never
      applied by `update`. */
  datatype UpdateProductionOrderDto = UpdateProductionOrderDto(
    code: Option<string>,
    externalCode: Option<string>,
    productId: Option<Id>,
    routeId: Option<Id>,
    quantityPlanned: Option<real>,
    priority: Option<Priority>,
    mainWorkCenterId: Option<Id>,
    shiftId: Option<Id>,
    plannedStartDate: Option<Timestamp>,
    plannedEndDate: Option<Timestamp>,
    dueDate: Option<Timestamp>,
    notes: Option<string>,
    status: Option<OrderStatus>)

  /** The smallest planned quantity request validation admits. */
  const MinQuantityPlanned: real := 0.0001

  // ---------------------------------------------------------------------------
  // The route template query: a route's operations in ascending sequence
  // ---------------------------------------------------------------------------

  predicate SortedBySequence(s: seq<RouteOperation>) {
    forall i, j :: 0 <= i < j < |s| ==> s[i].sequence <= s[j].sequence
  }

  /** The stored route operations of route `routeId`, in store order. */
  function OperationsOfRoute(routeOps: seq<RouteOperation>, routeId: Id): (r: seq<RouteOperation>)
    ensures forall x :: x in r <==> x in routeOps && x.routeId == routeId
    ensures |r| <= |routeOps|
  {
    if routeOps == [] then []
    else (if routeOps[0].routeId == routeId then [routeOps[0]] else []) + OperationsOfRoute(routeOps[1..], routeId)
  }

  /** `x` placed into the sorted `s` before the first operation whose sequence
      is not smaller. */
  function InsertBySequence(x: RouteOperation, s: seq<RouteOperation>): (r: seq<RouteOperation>)
    requires SortedBySequence(s)
    ensures SortedBySequence(r)
    ensures multiset(r) == multiset(s) + multiset{x}
  {
    if s == [] || x.sequence <= s[0].sequence then [x] + s
    else
      var tail := InsertBySequence(x, s[1..]);
      assert multiset(s) == multiset{s[0]} + multiset(s[1..]) by { assert s == [s[0]] + s[1..]; }
      assert forall y :: y in tail ==> s[0].sequence <= y.sequence by {
        forall y | y in tail ensures s[0].sequence <= y.sequence {
          assert y in multiset(tail);
          if y != x { assert y in multiset(s[1..]); }
        }
      }
      [s[0]] + tail
  }

  /** `order: { sequence: 'ASC' }` on a query result. */
  function SortBySequence(s: seq<RouteOperation>): (r: seq<RouteOperation>)
    ensures SortedBySequence(r)
    ensures multiset(r) == multiset(s)
  {
    if s == [] then []
    else
      assert s == [s[0]] + s[1..];
      InsertBySequence(s[0], SortBySequence(s[1..]))
  }

  /** The template `create` copies: route `routeId`'s operations, ascending by
      sequence. */
  function RouteTemplate(routeOps: seq<RouteOperation>, routeId: Id): (t: seq<RouteOperation>)
    ensures SortedBySequence(t)
    ensures multiset(t) == multiset(OperationsOfRoute(routeOps, routeId))
  {
    SortBySequence(OperationsOfRoute(routeOps, routeId))
  }

  // ---------------------------------------------------------------------------
  // Materialisation
  // ---------------------------------------------------------------------------

  /** The operation instance `create` builds from one route operation. */
  function OperationFromTemplate(rop: RouteOperation): OrderOperation {
    OrderOperation(Some(rop.id), rop.sequence, rop.name, rop.workCenterId, rop.machineId,
                   rop.standardTimeMinutes, Pending, None, None, None, None, None)
  }

  function MaterializeOperations(template: seq<RouteOperation>): (ops: seq<OrderOperation>)
    ensures |ops| == |template|
    ensures forall k :: 0 <= k < |ops| ==> ops[k] == OperationFromTemplate(template[k])
  {
    if template == [] then []
    else [OperationFromTemplate(template[0])] + MaterializeOperations(template[1..])
  }

  /** The order `create` builds: the code upper-cased, status PLANNED, nothing
      produced yet, the product's unit of measure, priority NORMAL unless given,
      and one operation per step of the template. */
  function NewOrder(id: Id, dto: CreateProductionOrderDto, product: Product, template: seq<RouteOperation>): (po: ProductionOrder)
    ensures po.id == id && po.code == Upper(dto.code) && IsUpper(po.code)
    ensures po.status == Planned && po.quantityProduced == 0.0
    ensures po.unitOfMeasure == product.unitOfMeasure
    ensures po.priority == (if dto.priority.Some? then dto.priority.value else Normal)
    ensures po.actualStartDate.None? && po.actualEndDate.None? && !po.deleted
    ensures po.operations == MaterializeOperations(template)
  {
    UpperCanonical(dto.code);
    ProductionOrder(
      id, Upper(dto.code), dto.externalCode, dto.productId, dto.routeId, dto.quantityPlanned, 0.0,
      product.unitOfMeasure, Planned, dto.priority.GetOr(Normal), dto.mainWorkCenterId, dto.shiftId,
      dto.plannedStartDate, dto.plannedEndDate, None, None, dto.dueDate, dto.notes,
      MaterializeOperations(template), false)
  }

  /** The template holds exactly the route's stored operations, each once per
      store row. */
  lemma TemplateIsTheRoute(routeOps: seq<RouteOperation>, routeId: Id)
    ensures |RouteTemplate(routeOps, routeId)| == |OperationsOfRoute(routeOps, routeId)|
    ensures forall rop :: rop in RouteTemplate(routeOps, routeId) <==> rop in routeOps && rop.routeId == routeId
  {
    var filtered := OperationsOfRoute(routeOps, routeId);
    var template := RouteTemplate(routeOps, routeId);
    assert |multiset(template)| == |template| && |multiset(filtered)| == |filtered|;
    forall rop ensures rop in template <==> rop in filtered {
      assert rop in template <==> rop in multiset(template);
      assert rop in filtered <==> rop in multiset(filtered);
    }
  }

  /** A materialised order's operations follow its route exactly: one per
      stored route operation, ascending by sequence with the template's
      sequence numbers kept verbatim, each copying a route operation of that
      route and starting PENDING, and none of the route's operations missing. */
  lemma MaterializedOperationsFollowRoute(routeOps: seq<RouteOperation>, routeId: Id)
    ensures |MaterializeOperations(RouteTemplate(routeOps, routeId))| == |OperationsOfRoute(routeOps, routeId)|
    ensures var ops := MaterializeOperations(RouteTemplate(routeOps, routeId));
      forall i, j :: 0 <= i < j < |ops| ==> ops[i].sequence <= ops[j].sequence
    ensures var ops := MaterializeOperations(RouteTemplate(routeOps, routeId));
      forall k :: 0 <= k < |ops| ==> ops[k].status == Pending && ops[k].routeOperationId.Some?
    ensures var ops := MaterializeOperations(RouteTemplate(routeOps, routeId));
      forall k :: 0 <= k < |ops| ==> exists rop :: rop in routeOps && rop.routeId == routeId && ops[k] == OperationFromTemplate(rop)
    ensures var ops := MaterializeOperations(RouteTemplate(routeOps, routeId));
      forall rop :: rop in routeOps && rop.routeId == routeId ==> OperationFromTemplate(rop) in ops
  {
    var template := RouteTemplate(routeOps, routeId);
    var ops := MaterializeOperations(template);
    TemplateIsTheRoute(routeOps, routeId);
    forall k | 0 <= k < |ops|
      ensures exists rop :: rop in routeOps && rop.routeId == routeId && ops[k] == OperationFromTemplate(rop)
    {
      assert template[k] in template;
    }
    forall rop | rop in routeOps && rop.routeId == routeId ensures OperationFromTemplate(rop) in ops {
      var k :| 0 <= k < |template| && template[k] == rop;
      assert ops[k] == OperationFromTemplate(rop);
    }
  }

  // ---------------------------------------------------------------------------
  // Status and field updates
  // ---------------------------------------------------------------------------

  /** The order after `updateStatus(status)` at time `now`: any status is
      accepted; entering IN_PROGRESS stamps the start date only if it was
      unset; COMPLETED always stamps the end date; nothing else changes. */
  function StatusUpdated(po: ProductionOrder, status: OrderStatus, now: Timestamp): (r: ProductionOrder)
    ensures r.status == status
    ensures po.actualStartDate.Some? ==> r.actualStartDate == po.actualStartDate
    ensures status == OrderStatus.InProgress && po.actualStartDate.None? ==> r.actualStartDate == Some(now)
    ensures status != OrderStatus.InProgress ==> r.actualStartDate == po.actualStartDate
    ensures status == OrderStatus.Completed ==> r.actualEndDate == Some(now)
    ensures status != OrderStatus.Completed ==> r.actualEndDate == po.actualEndDate
    ensures r == po.(status := status, actualStartDate := r.actualStartDate, actualEndDate := r.actualEndDate)
  {
    var p := po.(status := status);
    var p := if status == OrderStatus.InProgress && p.actualStartDate.None? then p.(actualStartDate := Some(now)) else p;
    if status == OrderStatus.Completed then p.(actualEndDate := Some(now)) else p
  }

  /** Whatever the statuses and times in between, once an order has been
      started its start date never moves. */
  lemma {:induction false} StartDateIsSticky(po: ProductionOrder, steps: seq<(OrderStatus, Timestamp)>)
    requires po.actualStartDate.Some?
    ensures ApplyStatuses(po, steps).actualStartDate == po.actualStartDate
    decreases |steps|
  {
    if steps != [] {
      StartDateIsSticky(StatusUpdated(po, steps[0].0, steps[0].1), steps[1..]);
    }
  }

  /** A sequence of `updateStatus` calls, in order. */
  function ApplyStatuses(po: ProductionOrder, steps: seq<(OrderStatus, Timestamp)>): ProductionOrder
    decreases |steps|
  {
    if steps == [] then po else ApplyStatuses(StatusUpdated(po, steps[0].0, steps[0].1), steps[1..])
  }

  /** The code `update` would give the order: the request's code upper-cased
      when it is non-empty and differs from the stored one. */
  predicate ChangesCode(po: ProductionOrder, dto: UpdateProductionOrderDto) {
    Truthy(dto.code) && Upper(dto.code.value) != po.code
  }

  /** The order after `update` applied `dto` (once the code check passed):
      a field the request carries is written, an absent one keeps its value;
      produced quantity, operations, product,
      route, unit of measure and actual dates never change. */
  function Updated(po: ProductionOrder, dto: UpdateProductionOrderDto): (r: ProductionOrder)
    ensures r.code == (if ChangesCode(po, dto) then Upper(dto.code.value) else po.code)
    ensures dto.externalCode.Some? ==> r.externalCode == dto.externalCode
    ensures dto.externalCode.None? ==> r.externalCode == po.externalCode
    ensures dto.quantityPlanned.Some? ==> r.quantityPlanned == dto.quantityPlanned.value
    ensures dto.quantityPlanned.None? ==> r.quantityPlanned == po.quantityPlanned
    ensures dto.priority.Some? ==> r.priority == dto.priority.value
    ensures dto.priority.None? ==> r.priority == po.priority
    ensures dto.mainWorkCenterId.Some? ==> r.mainWorkCenterId == dto.mainWorkCenterId
    ensures dto.mainWorkCenterId.None? ==> r.mainWorkCenterId == po.mainWorkCenterId
    ensures dto.shiftId.Some? ==> r.shiftId == dto.shiftId
    ensures dto.shiftId.None? ==> r.shiftId == po.shiftId
    ensures dto.status.None? ==> r.status == po.status
    ensures dto.status.Some? ==> r.status == dto.status.value
    ensures dto.plannedStartDate.Some? ==> r.plannedStartDate == dto.plannedStartDate
    ensures dto.plannedStartDate.None? ==> r.plannedStartDate == po.plannedStartDate
    ensures dto.plannedEndDate.Some? ==> r.plannedEndDate == dto.plannedEndDate
    ensures dto.plannedEndDate.None? ==> r.plannedEndDate == po.plannedEndDate
    ensures dto.dueDate.Some? ==> r.dueDate == dto.dueDate
    ensures dto.dueDate.None? ==> r.dueDate == po.dueDate
    ensures dto.notes.Some? ==> r.notes == dto.notes
    ensures dto.notes.None? ==> r.notes == po.notes
    ensures r.id == po.id && r.deleted == po.deleted
    ensures r.quantityProduced == po.quantityProduced && r.operations == po.operations
    ensures r.productId == po.productId && r.routeId == po.routeId && r.unitOfMeasure == po.unitOfMeasure
    ensures r.actualStartDate == po.actualStartDate && r.actualEndDate == po.actualEndDate
  {
    ProductionOrder(
      po.id,
      if ChangesCode(po, dto) then Upper(dto.code.value) else po.code,
      dto.externalCode.Or(po.externalCode),
      po.productId,
      po.routeId,
      dto.quantityPlanned.GetOr(po.quantityPlanned),
      po.quantityProduced,
      po.unitOfMeasure,
      dto.status.GetOr(po.status),
      dto.priority.GetOr(po.priority),
      dto.mainWorkCenterId.Or(po.mainWorkCenterId),
      dto.shiftId.Or(po.shiftId),
      dto.plannedStartDate.Or(po.plannedStartDate),
      dto.plannedEndDate.Or(po.plannedEndDate),
      po.actualStartDate,
      po.actualEndDate,
      dto.dueDate.Or(po.dueDate),
      dto.notes.Or(po.notes),
      po.operations,
      po.deleted)
  }

  /** The field assignments of `update`, in the order it makes them, once the
      code check has passed. */
  method ApplyUpdate(po: ProductionOrder, dto: UpdateProductionOrderDto) returns (p: ProductionOrder)
    ensures p == Updated(po, dto)
  {
    p := po;
    if Truthy(dto.code) && Upper(dto.code.value) != p.code {
      p := p.(code := Upper(dto.code.value));
    }
    p := p.(externalCode := dto.externalCode.Or(p.externalCode));
    p := p.(priority := dto.priority.GetOr(p.priority));
    p := p.(mainWorkCenterId := dto.mainWorkCenterId.Or(p.mainWorkCenterId));
    p := p.(shiftId := dto.shiftId.Or(p.shiftId));
    p := p.(notes := dto.notes.Or(p.notes));
    if dto.quantityPlanned.Some? {
      p := p.(quantityPlanned := dto.quantityPlanned.value);
    }
    if dto.plannedStartDate.Some? {
      p := p.(plannedStartDate := dto.plannedStartDate);
    }
    if dto.plannedEndDate.Some? {
      p := p.(plannedEndDate := dto.plannedEndDate);
    }
    if dto.dueDate.Some? {
      p := p.(dueDate := dto.dueDate);
    }
    if dto.status.Some? {
      p := p.(status := dto.status.value);
    }
  }

  // ---------------------------------------------------------------------------
  // The store
  // ---------------------------------------------------------------------------

  /** A live order: present and not soft-deleted. */
  predicate OrderExists(orders: map<Id, ProductionOrder>, id: Id) {
    id in orders && !orders[id].deleted
  }

  /** Some order, soft-deleted ones included, carries `code`. */
  ghost predicate CodeTaken(orders: map<Id, ProductionOrder>, code: string) {
    exists id :: id in orders && orders[id].code == code
  }

  /** Some live order carries `code`. */
  ghost predicate CodeLive(orders: map<Id, ProductionOrder>, code: string) {
    exists id :: OrderExists(orders, id) && orders[id].code == code
  }

  /** Keys agree with ids and lie below the next fresh id; codes are
      upper-cased and, by the table's unique index, distinct over all rows. */
  ghost predicate StoreInvariant(orders: map<Id, ProductionOrder>, nextId: Id) {
    && (forall id :: id in orders ==> orders[id].id == id && id < nextId && IsUpper(orders[id].code))
    && (forall a, b :: a in orders && b in orders && orders[a].code == orders[b].code ==> a == b)
  }

  class ProductionOrdersService {
    var orders: map<Id, ProductionOrder>
    /** The products a lookup by id resolves. */
    var products: map<Id, Product>
    /** The routes a lookup by id resolves. */
    var routes: set<Id>
    /** The route-operation table. */
    var routeOps: seq<RouteOperation>
    var nextId: Id

    ghost predicate Valid()
      reads this
    {
      StoreInvariant(orders, nextId)
    }

    constructor (orders: map<Id, ProductionOrder>, products: map<Id, Product>, routes: set<Id>,
                 routeOps: seq<RouteOperation>, nextId: Id)
      requires StoreInvariant(orders, nextId)
      ensures Valid()
      ensures this.orders == orders && this.products == products && this.routes == routes
      ensures this.routeOps == routeOps && this.nextId == nextId
    {
      this.orders := orders;
      this.products := products;
      this.routes := routes;
      this.routeOps := routeOps;
      this.nextId := nextId;
    }

    /** `create`: the code (upper-cased, soft-deleted orders included) must be
        free, then the product and then the route must resolve; on success the
        order and its operations are stored together, and on failure nothing is. */
    method Create(dto: CreateProductionOrderDto) returns (r: Result<ProductionOrder>)
      requires Valid()
      requires dto.quantityPlanned >= MinQuantityPlanned
      modifies this
      ensures Valid()
      ensures products == old(products) && routes == old(routes) && routeOps == old(routeOps)
      ensures CodeTaken(old(orders), Upper(dto.code)) ==>
                r == Err(Conflict("Production order code already in use"))
      ensures !CodeTaken(old(orders), Upper(dto.code)) && dto.productId !in products ==>
                r == Err(NotFound("Product not found"))
      ensures !CodeTaken(old(orders), Upper(dto.code)) && dto.productId in products && dto.routeId !in routes ==>
                r == Err(NotFound("Route not found"))
      ensures r.Ok? <==> !CodeTaken(old(orders), Upper(dto.code)) && dto.productId in products && dto.routeId in routes
      ensures r.Err? ==> orders == old(orders) && nextId == old(nextId)
      ensures r.Ok? ==>
                && r.value.id !in old(orders)
                && r.value == NewOrder(r.value.id, dto, products[dto.productId], RouteTemplate(routeOps, dto.routeId))
                && orders == old(orders)[r.value.id := r.value]
    {
      var code := Upper(dto.code);
      if exists id :: id in orders && orders[id].code == code {
        return Err(Conflict("Production order code already in use"));
      }
      if dto.productId !in products {
        return Err(NotFound("Product not found"));
      }
      var product := products[dto.productId];
      if dto.routeId !in routes {
        return Err(NotFound("Route not found"));
      }
      var template := RouteTemplate(routeOps, dto.routeId);
      var po := NewOrder(nextId, dto, product, template);
      orders := orders[nextId := po];
      nextId := nextId + 1;
      r := Ok(po);
    }

    /** `findOne`: the live order with that id. */
    method FindOne(id: Id) returns (r: Result<ProductionOrder>)
      ensures r.Ok? <==> OrderExists(orders, id)
      ensures r.Ok? ==> r.value == orders[id]
      ensures r.Err? ==> r.error == NotFound("Production order not found")
    {
      if id in orders && !orders[id].deleted {
        r := Ok(orders[id]);
      } else {
        r := Err(NotFound("Production order not found"));
      }
    }

    /** `updateStatus`: any status is stored, without a transition check; the
        actual dates are stamped with `now` as `StatusUpdated` says. */
    method UpdateStatus(id: Id, status: OrderStatus, now: Timestamp) returns (r: Result<ProductionOrder>)
      requires Valid()
      modifies this
      ensures Valid()
      ensures products == old(products) && routes == old(routes) && routeOps == old(routeOps) && nextId == old(nextId)
      ensures r.Err? <==> !OrderExists(old(orders), id)
      ensures r.Err? ==> r.error == NotFound("Production order not found") && orders == old(orders)
      ensures r.Ok? ==>
                && r.value == StatusUpdated(old(orders)[id], status, now)
                && orders == old(orders)[id := r.value]
    {
      var found := FindOne(id);
      if found.Err? {
        return found;
      }
      var po := found.value;
      po := po.(status := status);
      if status == OrderStatus.InProgress && po.actualStartDate.None? {
        po := po.(actualStartDate := Some(now));
      }
      if status == OrderStatus.Completed {
        po := po.(actualEndDate := Some(now));
      }
      orders := orders[id := po];
      r := Ok(po);
    }

    /** `update`: a changed, non-empty code is upper-cased and must not belong to
        a live order (Conflict); one held only by a soft-deleted order passes
        that check and is then refused by the table's unique index (an
        internal error); otherwise the request's present fields are applied. */
    method Update(id: Id, dto: UpdateProductionOrderDto) returns (r: Result<ProductionOrder>)
      requires Valid()
      requires dto.quantityPlanned.Some? ==> dto.quantityPlanned.value >= MinQuantityPlanned
      modifies this
      ensures Valid()
      ensures products == old(products) && routes == old(routes) && routeOps == old(routeOps) && nextId == old(nextId)
      ensures !OrderExists(old(orders), id) ==> r == Err(NotFound("Production order not found"))
      ensures OrderExists(old(orders), id) && ChangesCode(old(orders)[id], dto) && CodeLive(old(orders), Upper(dto.code.value)) ==>
                r == Err(Conflict("Production order code already in use"))
      ensures OrderExists(old(orders), id) && ChangesCode(old(orders)[id], dto)
              && !CodeLive(old(orders), Upper(dto.code.value)) && CodeTaken(old(orders), Upper(dto.code.value)) ==>
                r == Err(Internal("Internal server error"))
      ensures r.Ok? <==>
                && OrderExists(old(orders), id)
                && (!ChangesCode(old(orders)[id], dto) || !CodeTaken(old(orders), Upper(dto.code.value)))
      ensures r.Err? ==> orders == old(orders)
      ensures r.Ok? ==>
                && OrderExists(old(orders), id)
                && r.value == Updated(old(orders)[id], dto)
                && orders == old(orders)[id := r.value]
    {
      var found := FindOne(id);
      if found.Err? {
        return found;
      }
      var po := found.value;
      if ChangesCode(po, dto) {
        var code := Upper(dto.code.value);
        if exists other :: other in orders && !orders[other].deleted && orders[other].code == code {
          return Err(Conflict("Production order code already in use"));
        }
      }
      po := ApplyUpdate(po, dto);
      // The save: the unique index on `code` refuses a code another row holds.
      if exists other :: other in orders && other != id && orders[other].code == po.code {
        return Err(Internal("Internal server error"));
      }
      UpperCanonical(dto.code.GetOr(""));
      orders := orders[id := po];
      r := Ok(po);
    }
  }
}
