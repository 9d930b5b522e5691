# Manufacturing execution core, modelled in Dafny

This project models the core of a manufacturing execution system (MES) backend.
The backend is a NestJS service over a relational database. The model covers:

- **Production orders.** Creating an order from a product and a route copies
  the route's operations, in ascending sequence, into PENDING order
  operations. Updates change fields and status. Starting an order stamps its
  actual start date once; completing it stamps its end date.
- **Traceability.** Trace nodes are lots, serial items and containers.
  Directed links join them. The upstream and downstream genealogy is a
  depth-bounded walk that fetches each node's links at most once.
- **Quality inspections.** An inspection refers to a live trace node and
  starts PENDING. Adding a CRITICAL defect fails it.
- **Operators.** An operator has two unique keys, `codigo` and
  `numeroEmpleado`, checked over soft-deleted rows too. Each operator keeps a
  list of authorised machines with set-like assign and remove.
- **Pagination.** Validation of the page query, and the paged response with
  its page arithmetic.
- **The role guard.** It decides whether a request's user may reach a
  role-protected endpoint.

## How the model is built

- Each service is a class. Its repositories are fields: a `map` from id to
  record, or a `seq` when the order of rows matters, as for trace links.
  Each method states the whole new state of the fields it changes.
- Entities are datatypes. A soft delete is a `deleted` flag.
  - `findOne` skips soft-deleted rows.
  - Lookups with `withDeleted` see every row.
- Ids are naturals drawn from a `nextId` counter. The counter stands for the
  database's uuid generator: a new id differs from every id in use.
- `new Date()` is a `now` parameter. Numeric columns are `real`.
- Optional request fields are `Option`. `x ?? y` is `GetOr` (or `Or` on
  optional values). JavaScript truthiness of an optional string is `Truthy`:
  present and not empty.
- `toUpperCase` is `Common.Upper`, which maps the ASCII letters only.
- Each class has a `Valid()` invariant that every method keeps. It says:
  - stored ids match their keys and lie below `nextId`;
  - codes are upper-cased where the service upper-cases them;
  - codes are unique wherever the table has a unique index, over all rows,
    soft-deleted rows included;
  - references point at stored rows, in the trace and inspection services:
    every link joins two stored nodes, and every inspection and defect
    record names stored rows. The production-order and operator invariants
    do not constrain references.
- A write the database's unique index refuses surfaces as
  `Err(Internal("Internal server error"))`. Two paths reach it:
  - `ProductionOrders.ProductionOrdersService.Update`: the new code is held
    only by a soft-deleted order. The service's conflict check looks at live
    orders only, so the code passes the check and the index refuses the save.
  - `Operadores.OperadoresService.Create` and `Update`: the request carries an
    empty employee number that another operator already has. The service
    skips its check for an empty number, so the index refuses the save.
- The genealogy walk is specified twice:
  - `Traceability.Walk` and `WalkEdges` are mutually recursive functions.
    They carry the shared `visited` set through the walk, and they record
    which nodes had their links fetched.
  - `Traceability.TraceabilityService.Traverse` is the recursive method with
    its `for` loop. It is proved equal to `Walk`.
  - The properties of the genealogy are proved as lemmas about `Walk`.

## Model

| member | source | states |
|---|---|---|
| Common.UpperCanonical | src/production-orders/production-orders.service.ts:36 | Upper-casing yields an upper-case string, fixes one already upper-case, and is idempotent. |
| Pagination.ReadPageQuery | src/common/dto/pagination.dto.ts:5-31 | The page query validates exactly when `page >= 1` and `1 <= limit <= 100`. The defaults are 1 and 20. A value out of bounds is a bad request. |
| Pagination.CeilDiv | src/common/dto/pagination.dto.ts:60 | `Math.ceil(total / limit)` is the least page count holding `total` records. It is 0 exactly when there are no records. |
| Pagination.NewPaginatedResponse | src/common/dto/pagination.dto.ts:55-63 | The response keeps data, total, page and limit. `totalPages` is the ceiling of total over limit. There is a next page iff `page < totalPages` and a previous page iff `page > 1`. |
| Pagination.HasNextPageMeansMoreRecords | src/common/dto/pagination.dto.ts:60-61 | There is a next page exactly when `page * limit < total`. With no records, no page from 1 on has a next page. |
| Pagination.FirstPageHasNoPrevious | src/common/dto/pagination.dto.ts:12-16 | A validated request without a page gets page 1, which has no previous page. It has a next page iff `limit < total`. |
| RolesGuard.CanActivate | src/auth/guards/roles.guard.ts:14-31 | Access is granted when no roles are required (absent or empty). It is denied to a missing user. Otherwise it is granted iff the user's role is one of the required roles. |
| RolesGuard.MoreRolesNeverDeny | src/auth/guards/roles.guard.ts:30 | Adding roles to a non-empty list, before or after, never denies a user it admitted. |
| RolesGuard.OnlyTheRoleSetMatters | src/auth/guards/roles.guard.ts:21-30 | Two role lists with the same members give the same decision. |
| Traceability.NewNode | src/traceability/traceability.service.ts:48-64 | A new node has the upper-cased code and is live. Its unit of measure is the request's, else the product's, else none. |
| Traceability.Incident | src/traceability/traceability.service.ts:152-155 | The links fetched for a node are exactly the stored links whose child (upstream) or parent (downstream) is that node. |
| Traceability.WalkLevels | src/traceability/traceability.service.ts:147-169 | Every record of a walk lies between the starting level and the depth bound. |
| Traceability.WalkFetchesOnce | src/traceability/traceability.service.ts:147-150 | The visited set grows exactly by the nodes whose links were fetched. No node is fetched twice, and no node already visited is fetched. |
| Traceability.WalkEdgesTopLevel | src/traceability/traceability.service.ts:158-167 | At the loop's own level, the records are one per fetched link, in fetch order. This holds even when a link's far end was visited before. |
| Traceability.WalkTopLevel | src/traceability/traceability.service.ts:147-169 | A walk from an unvisited node within the depth bound reports, at its first level, one record per link of that node, in store order. |
| Traceability.WalkReportsFetched | src/traceability/traceability.service.ts:147-169 | Every link of every node whose links the walk fetched is reported, at a level between the starting level and the depth. This holds at every depth of the walk, including links that lead back to a node visited before. |
| Traceability.StoredLinkIsReported | src/traceability/traceability.service.ts:141-210 | A stored link appears at level 1 in its child's upstream answer and in its parent's downstream answer, for every depth of at least 1. |
| Traceability.CycleIsWalkedOnce | src/traceability/traceability.service.ts:184-206 | On the cycle A→B→A, a downstream walk of depth 5 fetches A and B once each. It reports exactly the two links, at levels 1 and 2. |
| Traceability.SingleTransformationUpstream | src/traceability/traceability.service.ts:152-164 | For lot A feeding lot B through one TRANSFORMATION link, B's upstream answer is that one record at level 1, naming A and the quantity used. |
| Traceability.TraceabilityService.constructor | src/traceability/traceability.service.ts:19-26 | The service starts over repositories that satisfy the store invariant. |
| Traceability.TraceabilityService.CreateNode | src/traceability/traceability.service.ts:28-67 | A code already used, soft-deleted nodes included, gives Conflict. Otherwise an unresolvable product gives NotFound. Success happens exactly when the code is free and the product, if one is named, resolves. Exactly one new node `NewNode` is then stored under a fresh id. On error nothing changes. |
| Traceability.TraceabilityService.FindNodeByCode | src/traceability/traceability.service.ts:100-109 | The result is found iff a live node's code equals the argument upper-cased, and the result is that node. Otherwise NotFound. |
| Traceability.TraceabilityService.LinkNodes | src/traceability/traceability.service.ts:111-136 | A missing parent gives NotFound, checked first; a missing child gives NotFound next. Otherwise exactly one link is appended, with its type defaulting to TRANSFORMATION. No cycle check is made. |
| Traceability.TraceabilityService.Traverse | src/traceability/traceability.service.ts:147-169 | The recursive traversal with its loop and shared visited set returns the records, visited set and fetch order of `Walk`. |
| Traceability.TraceabilityService.GetLineage | src/traceability/traceability.service.ts:141-210 | A missing start node gives NotFound. Otherwise the answer is the root and the records of `Walk` at depth 3 unless given. Levels lie in `1..depth`, and a depth of 0 or less gives no records. |
| Traceability.FoundUnderAnyCasing | src/traceability/traceability.service.ts:100-104 | Codes are unique, so the node found by code is determined. It is found under any spelling that upper-cases to its code. |
| ProductionOrders.OperationsOfRoute | src/production-orders/production-orders.service.ts:87-88 | The query returns exactly the stored route operations of that route. |
| ProductionOrders.InsertBySequence | src/production-orders/production-orders.service.ts:89 | Inserting into a list sorted by sequence keeps it sorted and adds exactly that element. |
| ProductionOrders.SortBySequence | src/production-orders/production-orders.service.ts:89 | The ordering by `sequence ASC` is sorted and a permutation of its input. |
| ProductionOrders.RouteTemplate | src/production-orders/production-orders.service.ts:87-90 | A route's operations, sorted ascending by sequence, as the same multiset the query returns. |
| ProductionOrders.MaterializeOperations | src/production-orders/production-orders.service.ts:92-103 | There is one order operation per template step, in the same order, each built from its step. |
| ProductionOrders.NewOrder | src/production-orders/production-orders.service.ts:61-84 | A new order has the upper-cased code, status PLANNED and nothing produced. It takes the product's unit of measure, priority NORMAL unless given, no actual dates, and the materialised operations. |
| ProductionOrders.TemplateIsTheRoute | src/production-orders/production-orders.service.ts:87-90 | The template holds exactly the route's operations, with the same count. |
| ProductionOrders.MaterializedOperationsFollowRoute | src/production-orders/production-orders.service.ts:87-103 | A new order's operations are one per route operation, ascending by sequence, all PENDING. Each copies an operation of that route, and none of the route's operations is missing. |
| ProductionOrders.StatusUpdated | src/production-orders/production-orders.service.ts:212-220 | The status is stored. IN_PROGRESS stamps the start date only when unset. COMPLETED always stamps the end date. Nothing else changes. |
| ProductionOrders.StartDateIsSticky | src/production-orders/production-orders.service.ts:214-216 | Once an order has a start date, no sequence of status updates moves it. |
| ProductionOrders.Updated | src/production-orders/production-orders.service.ts:168-201 | A field the request carries is written, and an absent one keeps its value, the work centre and shift included. A changed non-empty code is stored upper-cased. Produced quantity, operations, product, route, unit of measure and actual dates never change. |
| ProductionOrders.ApplyUpdate | src/production-orders/production-orders.service.ts:178-201 | The field-by-field assignments of `update` produce `Updated`. |
| ProductionOrders.ProductionOrdersService.constructor | src/production-orders/production-orders.service.ts:20-31 | The service starts over repositories that satisfy the store invariant. |
| ProductionOrders.ProductionOrdersService.Create | src/production-orders/production-orders.service.ts:33-106 | A used code, soft-deleted orders included, gives Conflict. Otherwise a missing product gives NotFound, then a missing route gives NotFound. Success happens exactly when the code is free and both the product and the route resolve. The order `NewOrder` with its operations is then stored under a fresh id. On error nothing changes. |
| ProductionOrders.ProductionOrdersService.FindOne | src/production-orders/production-orders.service.ts:149-160 | The result is found iff the order exists and is live, and it is that order. Otherwise NotFound. |
| ProductionOrders.ProductionOrdersService.UpdateStatus | src/production-orders/production-orders.service.ts:206-223 | Any status is accepted, with no transition check. The stored order becomes `StatusUpdated`, and a missing order gives NotFound. |
| ProductionOrders.ProductionOrdersService.Update | src/production-orders/production-orders.service.ts:162-204 | A missing order gives NotFound. A changed code held by a live order gives Conflict. A code held only by a soft-deleted order is refused by the unique index. Success happens exactly when the order exists and the code is unchanged or held by no row. On success the stored order becomes `Updated`. |
| Inspection.AfterDefect | src/quality/inspection/inspection.service.ts:74-78 | A CRITICAL defect makes the status FAILED whatever it was, PASSED included. Other severities keep it. |
| Inspection.CriticalDefectFailsForGood | src/quality/inspection/inspection.service.ts:74-78 | After a series of defects the inspection is FAILED exactly when one was CRITICAL or it was already FAILED. Without a CRITICAL defect the status is unchanged. |
| Inspection.NewInspection | src/quality/inspection/inspection.service.ts:44-49 | A new inspection refers to the requested node and starts PENDING, the column default. |
| Inspection.InspectionsService.constructor | src/quality/inspection/inspection.service.ts:23-35 | The service starts over repositories that satisfy the store invariant. |
| Inspection.InspectionsService.CreateInspection | src/quality/inspection/inspection.service.ts:37-52 | The result is NotFound iff the trace node is missing or soft-deleted. Otherwise `NewInspection` is stored under a fresh id. |
| Inspection.InspectionsService.AddDefect | src/quality/inspection/inspection.service.ts:54-81 | A missing inspection gives NotFound, then a missing defect gives NotFound, and then nothing is stored. Success happens exactly when both exist. Exactly one record with the given inspection, defect, quantity and notes is then appended. The inspection's status becomes `AfterDefect`, unchanged unless the defect is CRITICAL. |
| Inspection.InspectionsService.UpdateStatus | src/quality/inspection/inspection.service.ts:83-89 | Any status is stored, with no check. A missing inspection gives NotFound. |
| Operadores.Assigned | src/master-data/operadores/operadores.service.ts:247-253 | The machine ends up listed. An absent list becomes `[m]`. A listed machine leaves the list unchanged, which makes assignment idempotent. Otherwise the machine is appended at the end and the existing order is kept. |
| Operadores.Removed | src/master-data/operadores/operadores.service.ts:265-267 | The result holds exactly the other machines and is no longer than the input. |
| Operadores.RemovedConcat | src/master-data/operadores/operadores.service.ts:265-267 | Removal distributes over concatenation, so the remaining entries keep their relative order. |
| Operadores.RemovedAbsent | src/master-data/operadores/operadores.service.ts:265-267 | Removing an unlisted machine leaves the list as it was. |
| Operadores.AssignThenRemove | src/master-data/operadores/operadores.service.ts:247-268 | For a present list without `m`, assigning `m` and then removing it restores the list. |
| Operadores.NewOperador | src/master-data/operadores/operadores.service.ts:46 | A new operator carries the request's fields, with the defaults ACTIVO and BASICO. |
| Operadores.Merged | src/master-data/operadores/operadores.service.ts:192 | `Object.assign` overwrites exactly the fields the request carries. For each of the fifteen request fields, a present value is stored and an absent one keeps the stored value. An empty request changes nothing. |
| Operadores.OperadoresService.constructor | src/master-data/operadores/operadores.service.ts:15-18 | The service starts over a repository that satisfies the store invariant. |
| Operadores.OperadoresService.Create | src/master-data/operadores/operadores.service.ts:23-48 | A used codigo, soft-deleted included, gives Conflict. A used non-empty employee number gives Conflict. An absent number skips that check. Success happens exactly when neither key is taken, and then `NewOperador` is stored under a fresh id. |
| Operadores.OperadoresService.FindOne | src/master-data/operadores/operadores.service.ts:120-130 | The result is found iff the operator exists and is live. Otherwise NotFound. |
| Operadores.OperadoresService.Update | src/master-data/operadores/operadores.service.ts:165-194 | A missing operator gives NotFound. A changed non-empty codigo that is taken conflicts. After that, a changed non-empty employee number that is taken conflicts. A Conflict arises only in these two cases. An empty employee number that another operator holds is refused by the unique index. Success happens exactly when the operator exists and none of these cases applies. On success the stored operator becomes `Merged`. |
| Operadores.OperadoresService.CambiarEstado | src/master-data/operadores/operadores.service.ts:215-219 | Any status is stored, with no transition check. A missing operator gives NotFound. |
| Operadores.OperadoresService.AsignarMaquina | src/master-data/operadores/operadores.service.ts:244-256 | The stored list becomes `Assigned` of the old one. A missing operator gives NotFound. |
| Operadores.OperadoresService.RemoverMaquina | src/master-data/operadores/operadores.service.ts:261-271 | A present list becomes `Removed` of the old one. An absent list stays absent. A missing operator gives NotFound. |

## Left out

- Persistence, transactions and concurrency are not modelled. Each method
  runs atomically on the in-memory store, so the race between a uniqueness
  check and the insert that follows it does not arise.
- Listing and search queries are not modelled. They are the `findAll`,
  `findNodes`, `findByCodigo`, `findByNumeroEmpleado`, `findByTurno`,
  `findBySupervisor` and `getOne` endpoints, and the `ILIKE` filters and
  ordering by creation date they apply. Only the pagination arithmetic they
  share is modelled.
- Soft delete and restore are not modelled as operations. They are
  `softDelete`, `remove` and `restore`. Their effect is the `deleted` flag
  every lookup respects.
- Relations are not loaded. A record holds the related row's id, not the
  row. In particular a genealogy record names its neighbour node by id, so
  the loaded relation being empty for a soft-deleted neighbour is not
  modelled.
- The order in which the database returns the links of a node, and the
  order among route operations with equal `sequence`, are unspecified in
  the source. The model takes the store order, and ties keep an insertion
  order.
- Traceability.TraceabilityService.GetLineage: the controller passes `depth`
  as a query string. A non-numeric string gives `NaN`, and with a `NaN`
  depth no level is greater than the depth. That case is not modelled, and
  the depth is an integer.
- Common.Upper: upper-cases only the ASCII letters, because JavaScript's
  full Unicode case mapping is not modelled.
- Error messages that interpolate an id are given a fixed text. These are
  `Production order ${id} not found` and `Operador con id ${id} no
  encontrado`. The messages that interpolate a code or employee number are
  exact.
- An explicit JSON `null` in an update request is read as an absent field.
  With `??` the two agree. With `Object.assign` a `null` would clear the
  field.
- Operadores.OperadoresService.CambiarEstado: takes the status as the enum,
  whereas the endpoint accepts any string and the enum column rejects the
  rest when saving.
- Operator fields that `update` copies without any rule are not part of
  this model: `fechaIngreso`, `certificaciones`, `habilidades`, `foto` and
  `userId`.
- The update request of an operator is taken to be the creation request
  with every field optional and the same validators. The update DTO file is
  not part of this model.
- Column lengths are not modelled. The order `code` column holds 50
  characters, the trace-node `code` column 80, and the trace-link
  `processRefType` column 50. The request validators bound none of these
  lengths. A longer value therefore passes validation, and the database
  refuses the save with an internal error. The model stores such a value.
- Traceability.TraceabilityService.CreateNode: does not model the foreign
  key on `productionOrderId`. The request only checks that the id is a
  uuid, and the service never looks the order up. An id that names no
  order is refused at save with an internal error. The model stores the
  node, because it keeps no production-order table beside the nodes.
- Traceability.TraceabilityService.LinkNodes: does not model the uuid type
  of the `processRefId` column. The request accepts any string there, and
  a string that is not a uuid is refused at insert with an internal error.
  The model stores the link, because its ids are naturals and it has no
  notion of a malformed id.
- ProductionOrders.ProductionOrdersService.Create: does not model the
  foreign keys on `mainWorkCenterId` and `shiftId`. The service copies both
  unchecked, so an id that names no work centre or shift is refused at save
  with an internal error. The model stores the order, because work centres
  and shifts are not part of it.
- ProductionOrders.ProductionOrdersService.Update: does not model the same
  two foreign keys. A dangling `mainWorkCenterId` or `shiftId` in the
  request is refused at save with an internal error. The model stores the
  updated order.
- ProductionOrders.ProductionOrdersService.UpdateStatus: takes the status
  as the enum. The endpoint reads it from the request body as a primitive
  value, which the validation pipe does not check. A value outside the enum
  reaches the service, and the enum column rejects it at save with an
  internal error.
- Inspection.InspectionsService.UpdateStatus: takes the status as the enum.
  The endpoint reads it from the path without a validating pipe. A value
  outside the enum reaches the service, and the enum column rejects it at
  save with an internal error.
- Pagination.ReadPageQuery: takes `page` and `limit` as integers. The query
  validators also refuse a page or limit that is not an integer, such as
  `1.5` or `abc`, with a bad request. That error path is not modelled.
- Numeric columns are `real`. Floating-point rounding and the `numeric`
  column's decimal representation are not modelled.
- The user record, the JWT strategy and the role metadata lookup are not
  part of the role guard model. The reflector's answer and the request's
  user are parameters.
- Created and updated timestamps, and the auto-generated uuids, are not
  modelled. Ids come from the counter instead.
