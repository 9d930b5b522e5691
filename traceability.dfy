/** The genealogy store (trace nodes and the directed, typed links between
    them) and the bounded-depth upstream / downstream walks over it. */
module Traceability {
  import opened Common

  datatype TraceNodeType =
    | MaterialLot | SemiFinishedLot | FinishedGood | ItemSerial | Container | ProcessExecution

  datatype TraceLinkType =
    | Transformation | Consumption | Split | Merge | Packing | Movement

  /** A genealogy vertex; `deleted` is the soft-delete mark. */
  datatype TraceNode = TraceNode(
    id: Id,
    code: string,
    nodeType: TraceNodeType,
    productId: Option<Id>,
    productionOrderId: Option<Id>,
    quantity: Option<real>,
    unitOfMeasure: Option<string>,
    metadata: Option<map<string, string>>,
    manufacturingDate: Option<Timestamp>,
    expirationDate: Option<Timestamp>,
    notes: Option<string>,
    deleted: bool)

  /** A directed edge from the node that fed (parent) to the node it fed (child). */
  datatype TraceLink = TraceLink(
    id: Id,
    parentNodeId: Id,
    childNodeId: Id,
    linkType: TraceLinkType,
    quantityUsed: Option<real>,
    processRefId: Option<string>,
    processRefType: Option<string>)

  datatype CreateTraceNodeDto = CreateTraceNodeDto(
    code: string,
    nodeType: TraceNodeType,
    productId: Option<Id>,
    productionOrderId: Option<Id>,
    quantity: Option<real>,
    unitOfMeasure: Option<string>,
    metadata: Option<map<string, string>>,
    manufacturingDate: Option<Timestamp>,
    expirationDate: Option<Timestamp>,
    notes: Option<string>)

  datatype LinkTraceNodesDto = LinkTraceNodesDto(
    parentNodeId: Id,
    childNodeId: Id,
    linkType: Option<TraceLinkType>,
    quantityUsed: Option<real>,
    processRefId: Option<string>,
    processRefType: Option<string>)

  /** Upstream follows links into a node (what fed it); downstream follows
      links out of a node (what it fed). */
  datatype Direction = Upstream | Downstream

  /** One entry of a genealogy answer: the link's relation and quantity and
      the node at its far end, at the level where the link was met. */
  datatype GenealogyRecord = GenealogyRecord(
    level: int,
    relation: TraceLinkType,
    quantityUsed: Option<real>,
    nodeId: Id)

  datatype Lineage = Lineage(root: TraceNode, records: seq<GenealogyRecord>)

  /** The traversal depth used when the request names none. */
  const DefaultDepth := 3

  // ---------------------------------------------------------------------------
  // Queries on the stored values
  // ---------------------------------------------------------------------------

  /** The endpoint a link query matches on: the child for an upstream walk. */
  function Anchor(l: TraceLink, dir: Direction): Id {
    if dir == Upstream then l.childNodeId else l.parentNodeId
  }

  /** The endpoint a walk moves to: the parent for an upstream walk. */
  function Neighbour(l: TraceLink, dir: Direction): Id {
    if dir == Upstream then l.parentNodeId else l.childNodeId
  }

  function RecordOf(l: TraceLink, dir: Direction, level: int): GenealogyRecord {
    GenealogyRecord(level, l.linkType, l.quantityUsed, Neighbour(l, dir))
  }

  /** The links a node's query returns (`where childNodeId = id` upstream,
      `where parentNodeId = id` downstream), in store order. */
  function Incident(links: seq<TraceLink>, dir: Direction, id: Id): (es: seq<TraceLink>)
    ensures forall e :: e in es <==> e in links && Anchor(e, dir) == id
    ensures |es| <= |links|
  {
    if links == [] then []
    else (if Anchor(links[0], dir) == id then [links[0]] else []) + Incident(links[1..], dir, id)
  }

  /** A node that `findOne({ where: { id } })` returns: present and not soft-deleted. */
  predicate NodeExists(nodes: map<Id, TraceNode>, id: Id) {
    id in nodes && !nodes[id].deleted
  }

  /** Some node, soft-deleted ones included, already carries `code`. */
  predicate CodeTaken(nodes: map<Id, TraceNode>, code: string) {
    exists id :: id in nodes && nodes[id].code == code
  }

  /** What the store guarantees between requests: keys agree with ids and lie
      below the next fresh id, codes are upper-cased and unique across all
      nodes, and every link joins two stored nodes. */
  ghost predicate StoreInvariant(nodes: map<Id, TraceNode>, links: seq<TraceLink>, nextId: Id) {
    && (forall id :: id in nodes ==> nodes[id].id == id && id < nextId && IsUpper(nodes[id].code))
    && (forall a, b :: a in nodes && b in nodes && nodes[a].code == nodes[b].code ==> a == b)
    && (forall i :: 0 <= i < |links| ==>
          links[i].id < nextId && links[i].parentNodeId in nodes && links[i].childNodeId in nodes)
  }

  /** The node `createNode` builds from its request: the code upper-cased,
      and the unit of measure the request's, else the product's, else none. */
  function NewNode(id: Id, dto: CreateTraceNodeDto, product: Option<Product>): (n: TraceNode)
    ensures n.id == id && n.code == Upper(dto.code) && IsUpper(n.code) && !n.deleted
    ensures dto.unitOfMeasure.Some? ==> n.unitOfMeasure == dto.unitOfMeasure
    ensures dto.unitOfMeasure.None? && product.Some? ==> n.unitOfMeasure == Some(product.value.unitOfMeasure)
    ensures dto.unitOfMeasure.None? && product.None? ==> n.unitOfMeasure.None?
  {
    UpperCanonical(dto.code);
    TraceNode(
      id, Upper(dto.code), dto.nodeType, dto.productId, dto.productionOrderId, dto.quantity,
      if dto.unitOfMeasure.Some? then dto.unitOfMeasure
      else if product.Some? then Some(product.value.unitOfMeasure)
      else None,
      dto.metadata, dto.manufacturingDate, dto.expirationDate, dto.notes, false)
  }

  // ---------------------------------------------------------------------------
  // The walk, as a function: the specification of `Traverse`
  // ---------------------------------------------------------------------------

  /** The result of a (partial) walk: the records emitted, the visited set
      afterwards, and the nodes whose links were fetched, in fetch order. */
  datatype Walked = Walked(records: seq<GenealogyRecord>, visited: set<Id>, fetched: seq<Id>)

  /** `traverse(id, level)` started with the visited set `visited`. */
  function Walk(links: seq<TraceLink>, dir: Direction, depth: int, id: Id, level: int, visited: set<Id>): Walked
    requires level >= 1
    decreases if level <= depth then depth + 1 - level else 0, 1, 0
  {
    if level > depth || id in visited then Walked([], visited, [])
    else
      var rest := WalkEdges(links, dir, depth, Incident(links, dir, id), 0, level, visited + {id});
      Walked(rest.records, rest.visited, [id] + rest.fetched)
  }

  /** The `for` loop of `traverse` over the fetched links `es`, from index `i`:
      each link's record is emitted before the walk into its far end. */
  function WalkEdges(links: seq<TraceLink>, dir: Direction, depth: int, es: seq<TraceLink>, i: nat, level: int, visited: set<Id>): Walked
    requires 1 <= level <= depth && i <= |es|
    decreases depth + 1 - level, 0, |es| - i
  {
    if i == |es| then Walked([], visited, [])
    else
      var sub := Walk(links, dir, depth, Neighbour(es[i], dir), level + 1, visited);
      var rest := WalkEdges(links, dir, depth, es, i + 1, level, sub.visited);
      Walked([RecordOf(es[i], dir, level)] + sub.records + rest.records, rest.visited, sub.fetched + rest.fetched)
  }

  /** The records of `rs` at level `level`, in order. */
  function AtLevel(rs: seq<GenealogyRecord>, level: int): (r: seq<GenealogyRecord>)
    ensures forall x :: x in r <==> x in rs && x.level == level
  {
    if rs == [] then []
    else (if rs[0].level == level then [rs[0]] else []) + AtLevel(rs[1..], level)
  }

  /** The records of the links `es`, all at `level`, in order. */
  function RecordsFor(es: seq<TraceLink>, dir: Direction, level: int): (r: seq<GenealogyRecord>)
    ensures |r| == |es|
    ensures forall k :: 0 <= k < |es| ==> r[k] == RecordOf(es[k], dir, level)
  {
    if es == [] then [] else [RecordOf(es[0], dir, level)] + RecordsFor(es[1..], dir, level)
  }

  predicate Distinct(s: seq<Id>) {
    forall i, j :: 0 <= i < j < |s| ==> s[i] != s[j]
  }

  // ---------------------------------------------------------------------------
  // Properties of the walk
  // ---------------------------------------------------------------------------

  /** Every record lies between the starting level and the depth bound. */
  lemma {:induction false} WalkLevels(links: seq<TraceLink>, dir: Direction, depth: int, id: Id, level: int, visited: set<Id>)
    requires level >= 1
    ensures forall r :: r in Walk(links, dir, depth, id, level, visited).records ==> level <= r.level <= depth
    decreases if level <= depth then depth + 1 - level else 0, 1, 0
  {
    if !(level > depth || id in visited) {
      WalkEdgesLevels(links, dir, depth, Incident(links, dir, id), 0, level, visited + {id});
    }
  }

  lemma {:induction false} WalkEdgesLevels(links: seq<TraceLink>, dir: Direction, depth: int, es: seq<TraceLink>, i: nat, level: int, visited: set<Id>)
    requires 1 <= level <= depth && i <= |es|
    ensures forall r :: r in WalkEdges(links, dir, depth, es, i, level, visited).records ==> level <= r.level <= depth
    decreases depth + 1 - level, 0, |es| - i
  {
    if i < |es| {
      var sub := Walk(links, dir, depth, Neighbour(es[i], dir), level + 1, visited);
      WalkLevels(links, dir, depth, Neighbour(es[i], dir), level + 1, visited);
      WalkEdgesLevels(links, dir, depth, es, i + 1, level, sub.visited);
    }
  }

  lemma ElementsConcat(a: seq<Id>, b: seq<Id>)
    ensures (set x | x in a + b) == (set x | x in a) + (set x | x in b)
  {
  }

  lemma DistinctConcat(a: seq<Id>, b: seq<Id>)
    requires Distinct(a) && Distinct(b)
    requires forall x :: x in a ==> x !in b
    ensures Distinct(a + b)
  {
    forall i, j | 0 <= i < j < |a + b| ensures (a + b)[i] != (a + b)[j] {
      if i < |a| <= j {
        assert (a + b)[i] == a[i] && a[i] in a;
        assert (a + b)[j] == b[j - |a|];
      }
    }
  }

  /** The visited set only grows, and exactly by the nodes whose links were
      fetched; no node has its links fetched twice, nor a node already visited. */
  lemma {:induction false} WalkFetchesOnce(links: seq<TraceLink>, dir: Direction, depth: int, id: Id, level: int, visited: set<Id>)
    requires level >= 1
    ensures var w := Walk(links, dir, depth, id, level, visited);
      && w.visited == visited + (set x | x in w.fetched)
      && Distinct(w.fetched)
      && (forall x :: x in w.fetched ==> x !in visited)
    decreases if level <= depth then depth + 1 - level else 0, 1, 0
  {
    if !(level > depth || id in visited) {
      var rest := WalkEdges(links, dir, depth, Incident(links, dir, id), 0, level, visited + {id});
      WalkEdgesFetchesOnce(links, dir, depth, Incident(links, dir, id), 0, level, visited + {id});
      DistinctConcat([id], rest.fetched);
    }
  }

  lemma {:induction false} WalkEdgesFetchesOnce(links: seq<TraceLink>, dir: Direction, depth: int, es: seq<TraceLink>, i: nat, level: int, visited: set<Id>)
    requires 1 <= level <= depth && i <= |es|
    ensures var w := WalkEdges(links, dir, depth, es, i, level, visited);
      && w.visited == visited + (set x | x in w.fetched)
      && Distinct(w.fetched)
      && (forall x :: x in w.fetched ==> x !in visited)
    decreases depth + 1 - level, 0, |es| - i
  {
    if i < |es| {
      var sub := Walk(links, dir, depth, Neighbour(es[i], dir), level + 1, visited);
      var rest := WalkEdges(links, dir, depth, es, i + 1, level, sub.visited);
      WalkFetchesOnce(links, dir, depth, Neighbour(es[i], dir), level + 1, visited);
      WalkEdgesFetchesOnce(links, dir, depth, es, i + 1, level, sub.visited);
      WalkEdgesStep(links, dir, depth, es, i, level, visited);
      DistinctConcat(sub.fetched, rest.fetched);
      ElementsConcat(sub.fetched, rest.fetched);
    }
  }

  lemma {:induction false} AtLevelConcat(a: seq<GenealogyRecord>, b: seq<GenealogyRecord>, level: int)
    ensures AtLevel(a + b, level) == AtLevel(a, level) + AtLevel(b, level)
  {
    if a == [] {
      assert a + b == b;
    } else {
      var head := if a[0].level == level then [a[0]] else [];
      assert (a + b)[0] == a[0];
      assert (a + b)[1..] == a[1..] + b;
      AtLevelConcat(a[1..], b, level);
      calc {
        AtLevel(a + b, level);
        head + AtLevel(a[1..] + b, level);
        head + (AtLevel(a[1..], level) + AtLevel(b, level));
        (head + AtLevel(a[1..], level)) + AtLevel(b, level);
      }
    }
  }

  lemma {:induction false} AtLevelAbsent(rs: seq<GenealogyRecord>, level: int)
    requires forall x :: x in rs ==> x.level > level
    ensures AtLevel(rs, level) == []
  {
    if rs != [] {
      assert rs[0] in rs;
      assert forall x :: x in rs[1..] ==> x in rs;
      AtLevelAbsent(rs[1..], level);
    }
  }

  /** The level-`level` records of the loop over `es` from index `i` are exactly
      one record per remaining link, in link order: a link is reported even
      when its far end was visited before, and deeper records never come
      between them out of order. */
  lemma {:induction false} WalkEdgesTopLevel(links: seq<TraceLink>, dir: Direction, depth: int, es: seq<TraceLink>, i: nat, level: int, visited: set<Id>)
    requires 1 <= level <= depth && i <= |es|
    ensures AtLevel(WalkEdges(links, dir, depth, es, i, level, visited).records, level) == RecordsFor(es[i..], dir, level)
    decreases |es| - i
  {
    if i < |es| {
      var head := [RecordOf(es[i], dir, level)];
      var sub := Walk(links, dir, depth, Neighbour(es[i], dir), level + 1, visited);
      var rest := WalkEdges(links, dir, depth, es, i + 1, level, sub.visited);
      WalkEdgesStep(links, dir, depth, es, i, level, visited);
      SubWalkIsDeeper(links, dir, depth, Neighbour(es[i], dir), level, visited);
      WalkEdgesTopLevel(links, dir, depth, es, i + 1, level, sub.visited);
      AtLevelConcat(head, sub.records, level);
      AtLevelConcat(head + sub.records, rest.records, level);
      assert AtLevel(head, level) == head by {
        assert head[1..] == [];
      }
      RecordsForStep(es, i, dir, level);
    }
  }

  /** A walk from an unvisited node within the depth bound: the node is
      marked visited and its links are walked. */
  lemma WalkStep(links: seq<TraceLink>, dir: Direction, depth: int, id: Id, level: int, visited: set<Id>)
    requires 1 <= level <= depth && id !in visited
    ensures var rest := WalkEdges(links, dir, depth, Incident(links, dir, id), 0, level, visited + {id});
      Walk(links, dir, depth, id, level, visited) == Walked(rest.records, rest.visited, [id] + rest.fetched)
  {
  }

  /** One step of the loop: the record of link `i`, then the walk into its far
      end, then the rest of the loop, which starts from the visited set the
      walk left. */
  lemma WalkEdgesStep(links: seq<TraceLink>, dir: Direction, depth: int, es: seq<TraceLink>, i: nat, level: int, visited: set<Id>)
    requires 1 <= level <= depth && i < |es|
    ensures var sub := Walk(links, dir, depth, Neighbour(es[i], dir), level + 1, visited);
      var rest := WalkEdges(links, dir, depth, es, i + 1, level, sub.visited);
      WalkEdges(links, dir, depth, es, i, level, visited)
        == Walked([RecordOf(es[i], dir, level)] + sub.records + rest.records, rest.visited, sub.fetched + rest.fetched)
  {
  }

  /** One iteration of the loop of `Traverse` keeps its invariant: the records
      and fetches so far, followed by what the rest of the loop yields, are
      what the whole loop yields. */
  lemma LoopStep(links: seq<TraceLink>, dir: Direction, depth: int, es: seq<TraceLink>, i: nat, level: int,
                 visited: set<Id>, whole: Walked, tail: Walked, result: seq<GenealogyRecord>, fetched: seq<Id>,
                 sub: seq<GenealogyRecord>, v: set<Id>, f: seq<Id>)
    requires 1 <= level <= depth && i < |es|
    requires tail == WalkEdges(links, dir, depth, es, i, level, visited)
    requires whole.records == result + tail.records && whole.visited == tail.visited
    requires whole.fetched == fetched + tail.fetched
    requires Walked(sub, v, f) == Walk(links, dir, depth, Neighbour(es[i], dir), level + 1, visited)
    ensures var next := WalkEdges(links, dir, depth, es, i + 1, level, v);
      && whole.records == (result + [RecordOf(es[i], dir, level)] + sub) + next.records
      && whole.visited == next.visited
      && whole.fetched == (fetched + f) + next.fetched
  {
    WalkEdgesStep(links, dir, depth, es, i, level, visited);
  }

  /** A walk one level down has no record at the current level. */
  lemma SubWalkIsDeeper(links: seq<TraceLink>, dir: Direction, depth: int, id: Id, level: int, visited: set<Id>)
    requires level >= 1
    ensures AtLevel(Walk(links, dir, depth, id, level + 1, visited).records, level) == []
  {
    WalkLevels(links, dir, depth, id, level + 1, visited);
    AtLevelAbsent(Walk(links, dir, depth, id, level + 1, visited).records, level);
  }

  lemma RecordsForStep(es: seq<TraceLink>, i: nat, dir: Direction, level: int)
    requires i < |es|
    ensures RecordsFor(es[i..], dir, level) == [RecordOf(es[i], dir, level)] + RecordsFor(es[i + 1..], dir, level)
  {
  }

  /** A walk from an unvisited node within the depth bound reports, at its
      starting level, one record per link of that node, in store order. */
  lemma WalkTopLevel(links: seq<TraceLink>, dir: Direction, depth: int, id: Id, level: int, visited: set<Id>)
    requires 1 <= level <= depth && id !in visited
    ensures AtLevel(Walk(links, dir, depth, id, level, visited).records, level) == RecordsFor(Incident(links, dir, id), dir, level)
  {
    var es := Incident(links, dir, id);
    WalkEdgesTopLevel(links, dir, depth, es, 0, level, visited + {id});
    assert es[0..] == es;
  }

  /** `rs` holds the record of link `l` at some level between `lo` and `hi`. */
  ghost predicate Reported(l: TraceLink, dir: Direction, rs: seq<GenealogyRecord>, lo: int, hi: int) {
    exists lv :: lo <= lv <= hi && RecordOf(l, dir, lv) in rs
  }

  /** Every link of every node whose links a walk fetched is reported by that
      walk, at a level within the bounds, even when the link leads back to a
      node visited before. */
  lemma {:induction false} WalkReportsFetched(links: seq<TraceLink>, dir: Direction, depth: int, id: Id, level: int, visited: set<Id>)
    requires level >= 1
    ensures var w := Walk(links, dir, depth, id, level, visited);
      forall x, l :: x in w.fetched && l in Incident(links, dir, x) ==> Reported(l, dir, w.records, level, depth)
    decreases if level <= depth then depth + 1 - level else 0, 1, 0
  {
    if !(level > depth || id in visited) {
      var es := Incident(links, dir, id);
      var w := Walk(links, dir, depth, id, level, visited);
      var rest := WalkEdges(links, dir, depth, es, 0, level, visited + {id});
      WalkStep(links, dir, depth, id, level, visited);
      WalkEdgesReportsFetched(links, dir, depth, es, 0, level, visited + {id});
      WalkTopLevel(links, dir, depth, id, level, visited);
      forall l | l in es
        ensures Reported(l, dir, w.records, level, depth)
      {
        var k :| 0 <= k < |es| && es[k] == l;
        assert RecordsFor(es, dir, level)[k] == RecordOf(l, dir, level);
        assert RecordOf(l, dir, level) in AtLevel(w.records, level);
      }
    }
  }

  lemma {:induction false} WalkEdgesReportsFetched(links: seq<TraceLink>, dir: Direction, depth: int, es: seq<TraceLink>, i: nat, level: int, visited: set<Id>)
    requires 1 <= level <= depth && i <= |es|
    ensures var w := WalkEdges(links, dir, depth, es, i, level, visited);
      forall x, l :: x in w.fetched && l in Incident(links, dir, x) ==> Reported(l, dir, w.records, level, depth)
    decreases depth + 1 - level, 0, |es| - i
  {
    if i < |es| {
      var w := WalkEdges(links, dir, depth, es, i, level, visited);
      var sub := Walk(links, dir, depth, Neighbour(es[i], dir), level + 1, visited);
      var rest := WalkEdges(links, dir, depth, es, i + 1, level, sub.visited);
      WalkEdgesStep(links, dir, depth, es, i, level, visited);
      WalkReportsFetched(links, dir, depth, Neighbour(es[i], dir), level + 1, visited);
      WalkEdgesReportsFetched(links, dir, depth, es, i + 1, level, sub.visited);
      forall x, l | x in w.fetched && l in Incident(links, dir, x)
        ensures Reported(l, dir, w.records, level, depth)
      {
        if x in sub.fetched {
          assert Reported(l, dir, sub.records, level + 1, depth);
          var lv :| level + 1 <= lv <= depth && RecordOf(l, dir, lv) in sub.records;
          assert RecordOf(l, dir, lv) in w.records;
        } else {
          assert x in rest.fetched;
          assert Reported(l, dir, rest.records, level, depth);
          var lv :| level <= lv <= depth && RecordOf(l, dir, lv) in rest.records;
          assert RecordOf(l, dir, lv) in w.records;
        }
      }
    }
  }

  /** Round trip: a stored link shows up, at level 1, in the upstream answer of
      its child and in the downstream answer of its parent, for any depth >= 1. */
  lemma StoredLinkIsReported(links: seq<TraceLink>, l: TraceLink, depth: int)
    requires l in links && depth >= 1
    ensures RecordOf(l, Upstream, 1) in Walk(links, Upstream, depth, l.childNodeId, 1, {}).records
    ensures RecordOf(l, Downstream, 1) in Walk(links, Downstream, depth, l.parentNodeId, 1, {}).records
  {
    var up := Incident(links, Upstream, l.childNodeId);
    var k :| 0 <= k < |up| && up[k] == l;
    WalkTopLevel(links, Upstream, depth, l.childNodeId, 1, {});
    assert RecordsFor(up, Upstream, 1)[k] == RecordOf(l, Upstream, 1);
    var down := Incident(links, Downstream, l.parentNodeId);
    var m :| 0 <= m < |down| && down[m] == l;
    WalkTopLevel(links, Downstream, depth, l.parentNodeId, 1, {});
    assert RecordsFor(down, Downstream, 1)[m] == RecordOf(l, Downstream, 1);
  }

  /** On the two-node cycle A -> B -> A a downstream walk of depth 5 from A
      stops: it fetches the links of A and of B once each and reports both
      links, the second one back to the already visited A. */
  lemma CycleIsWalkedOnce(a: Id, b: Id, ab: TraceLink, ba: TraceLink)
    requires a != b
    requires ab.parentNodeId == a && ab.childNodeId == b
    requires ba.parentNodeId == b && ba.childNodeId == a
    ensures Walk([ab, ba], Downstream, 5, a, 1, {}).fetched == [a, b]
    ensures Walk([ab, ba], Downstream, 5, a, 1, {}).records
              == [RecordOf(ab, Downstream, 1), RecordOf(ba, Downstream, 2)]
  {
    var links := [ab, ba];
    assert Incident(links[1..][1..], Downstream, a) == [];
    assert Incident(links[1..], Downstream, a) == [];
    assert Incident(links, Downstream, a) == [ab];
    assert Incident(links[1..][1..], Downstream, b) == [];
    assert Incident(links[1..], Downstream, b) == [ba];
    assert Incident(links, Downstream, b) == [ba];
    var back := Walk(links, Downstream, 5, a, 3, {a, b});
    assert back == Walked([], {a, b}, []);
    var fromB := WalkEdges(links, Downstream, 5, [ba], 0, 2, {a, b});
    assert WalkEdges(links, Downstream, 5, [ba], 1, 2, {a, b}) == Walked([], {a, b}, []);
    assert fromB == Walked([RecordOf(ba, Downstream, 2)], {a, b}, []);
    var atB := Walk(links, Downstream, 5, b, 2, {a});
    assert {a} + {b} == {a, b};
    assert atB == Walked([RecordOf(ba, Downstream, 2)], {a, b}, [b]);
    assert WalkEdges(links, Downstream, 5, [ab], 1, 1, {a, b}) == Walked([], {a, b}, []);
    var fromA := WalkEdges(links, Downstream, 5, [ab], 0, 1, {a});
    assert fromA == Walked([RecordOf(ab, Downstream, 1), RecordOf(ba, Downstream, 2)], {a, b}, [b]);
    assert {} + {a} == {a};
    assert Walk(links, Downstream, 5, a, 1, {}) == Walked(fromA.records, fromA.visited, [a] + fromA.fetched);
  }

  /** Lot A feeds lot B through one TRANSFORMATION link using 50 units: the
      upstream answer for B at depth 3 is exactly that link, at level 1, naming A. */
  lemma SingleTransformationUpstream(a: Id, b: Id, l: TraceLink)
    requires a != b
    requires l == TraceLink(l.id, a, b, Transformation, Some(50.0), None, None)
    ensures Walk([l], Upstream, 3, b, 1, {}).records
              == [GenealogyRecord(1, Transformation, Some(50.0), a)]
  {
    var links := [l];
    assert Incident(links[1..], Upstream, b) == [];
    assert Incident(links, Upstream, b) == [l];
    assert Incident(links[1..], Upstream, a) == [];
    assert Incident(links, Upstream, a) == [];
    var atA := Walk(links, Upstream, 3, a, 2, {b});
    assert WalkEdges(links, Upstream, 3, [], 0, 2, {b} + {a}) == Walked([], {b} + {a}, []);
    assert atA.records == [];
    assert WalkEdges(links, Upstream, 3, [l], 1, 1, atA.visited).records == [];
  }

  // ---------------------------------------------------------------------------
  // The service
  // ---------------------------------------------------------------------------

  class TraceabilityService {
    var nodes: map<Id, TraceNode>
    var links: seq<TraceLink>
    var products: map<Id, Product>
    var nextId: Id

    ghost predicate Valid()
      reads this
    {
      StoreInvariant(nodes, links, nextId)
    }

    /** The service over the repositories as it finds them. `products` holds
        the products a lookup by id resolves. */
    constructor (nodes: map<Id, TraceNode>, links: seq<TraceLink>, products: map<Id, Product>, nextId: Id)
      requires StoreInvariant(nodes, links, nextId)
      ensures Valid()
      ensures this.nodes == nodes && this.links == links && this.products == products && this.nextId == nextId
    {
      this.nodes := nodes;
      this.links := links;
      this.products := products;
      this.nextId := nextId;
    }

    /** `createNode`: reject a code already used (soft-deleted nodes included)
        with Conflict and an unresolvable product with NotFound; otherwise store
        a fresh node with the upper-cased code. */
    method CreateNode(dto: CreateTraceNodeDto) returns (r: Result<TraceNode>)
      requires Valid()
      modifies this
      ensures Valid()
      ensures links == old(links) && products == old(products)
      ensures CodeTaken(old(nodes), Upper(dto.code)) ==>
                r == Err(Conflict("Trace node code already in use")) && nodes == old(nodes)
      ensures !CodeTaken(old(nodes), Upper(dto.code)) && dto.productId.Some? && dto.productId.value !in products ==>
                r == Err(NotFound("Product not found")) && nodes == old(nodes)
      ensures r.Ok? <==> !CodeTaken(old(nodes), Upper(dto.code)) && (dto.productId.None? || dto.productId.value in products)
      ensures r.Err? ==> nodes == old(nodes) && nextId == old(nextId)
      ensures r.Ok? ==>
                && !CodeTaken(old(nodes), Upper(dto.code))
                && r.value.id !in old(nodes)
                && nodes == old(nodes)[r.value.id := r.value]
                && r.value == NewNode(r.value.id, dto, if dto.productId.Some? then Some(products[dto.productId.value]) else None)
    {
      var code := Upper(dto.code);
      UpperCanonical(dto.code);
      if exists id :: id in nodes && nodes[id].code == code {
        return Err(Conflict("Trace node code already in use"));
      }
      var product: Option<Product> := None;
      if dto.productId.Some? {
        if dto.productId.value !in products {
          return Err(NotFound("Product not found"));
        }
        product := Some(products[dto.productId.value]);
      }
      var node := NewNode(nextId, dto, product);
      nodes := nodes[nextId := node];
      nextId := nextId + 1;
      r := Ok(node);
    }

    /** `findNodeByCode`: the live node whose code is the argument upper-cased. */
    method FindNodeByCode(code: string) returns (r: Result<TraceNode>)
      requires Valid()
      ensures r.Ok? <==> exists id :: NodeExists(nodes, id) && nodes[id].code == Upper(code)
      ensures r.Ok? ==> NodeExists(nodes, r.value.id) && nodes[r.value.id] == r.value && r.value.code == Upper(code)
      ensures r.Err? ==> r.error == NotFound("Trace node not found")
    {
      var c := Upper(code);
      if id :| id in nodes && !nodes[id].deleted && nodes[id].code == c {
        r := Ok(nodes[id]);
      } else {
        r := Err(NotFound("Trace node not found"));
      }
    }

    /** `linkNodes`: both ends must be live nodes (parent checked first); the
        link's type defaults to TRANSFORMATION; no cycle check is made. */
    method LinkNodes(dto: LinkTraceNodesDto) returns (r: Result<TraceLink>)
      requires Valid()
      modifies this
      ensures Valid()
      ensures nodes == old(nodes) && products == old(products)
      ensures !NodeExists(nodes, dto.parentNodeId) ==> r == Err(NotFound("Parent node not found"))
      ensures NodeExists(nodes, dto.parentNodeId) && !NodeExists(nodes, dto.childNodeId) ==>
                r == Err(NotFound("Child node not found"))
      ensures r.Err? ==> links == old(links) && nextId == old(nextId)
      ensures r.Ok? <==> NodeExists(nodes, dto.parentNodeId) && NodeExists(nodes, dto.childNodeId)
      ensures r.Ok? ==>
                && links == old(links) + [r.value]
                && r.value == TraceLink(old(nextId), dto.parentNodeId, dto.childNodeId,
                                        dto.linkType.GetOr(Transformation), dto.quantityUsed,
                                        dto.processRefId, dto.processRefType)
    {
      if !(dto.parentNodeId in nodes && !nodes[dto.parentNodeId].deleted) {
        return Err(NotFound("Parent node not found"));
      }
      if !(dto.childNodeId in nodes && !nodes[dto.childNodeId].deleted) {
        return Err(NotFound("Child node not found"));
      }
      var link := TraceLink(nextId, dto.parentNodeId, dto.childNodeId,
                            dto.linkType.GetOr(Transformation), dto.quantityUsed,
                            dto.processRefId, dto.processRefType);
      links := links + [link];
      nextId := nextId + 1;
      r := Ok(link);
    }

    /** The inner `traverse` of `getUpstream` / `getDownstream`. The shared
        `visited` set is passed in and handed back. */
    method Traverse(dir: Direction, depth: int, id: Id, level: int, visited: set<Id>)
      returns (result: seq<GenealogyRecord>, visitedOut: set<Id>, ghost fetched: seq<Id>)
      requires level >= 1
      ensures result == Walk(links, dir, depth, id, level, visited).records
      ensures visitedOut == Walk(links, dir, depth, id, level, visited).visited
      ensures fetched == Walk(links, dir, depth, id, level, visited).fetched
      decreases if level <= depth then depth + 1 - level else 0
    {
      if level > depth {
        return [], visited, [];
      }
      if id in visited {
        return [], visited, [];
      }
      visitedOut := visited + {id};
      var es := Incident(links, dir, id);
      ghost var whole := WalkEdges(links, dir, depth, es, 0, level, visitedOut);
      ghost var tail := whole;
      WalkStep(links, dir, depth, id, level, visited);
      result := [];
      fetched := [];
      var i := 0;
      while i < |es|
        invariant 0 <= i <= |es|
        invariant tail == WalkEdges(links, dir, depth, es, i, level, visitedOut)
        invariant whole.records == result + tail.records && whole.visited == tail.visited
        invariant whole.fetched == fetched + tail.fetched
      {
        var link := es[i];
        var sub, v, f := Traverse(dir, depth, Neighbour(link, dir), level + 1, visitedOut);
        LoopStep(links, dir, depth, es, i, level, visitedOut, whole, tail, result, fetched, sub, v, f);
        result := result + [RecordOf(link, dir, level)] + sub;
        visitedOut := v;
        fetched := fetched + f;
        i := i + 1;
        tail := WalkEdges(links, dir, depth, es, i, level, visitedOut);
      }
      fetched := [id] + fetched;
    }

    /** `getUpstream` / `getDownstream`: NotFound for a missing start node,
        otherwise the start node and the records of a walk from it at level 1
        with an empty visited set, bounded by `depth` (3 when absent). */
    method GetLineage(dir: Direction, nodeId: Id, depth: Option<int>) returns (r: Result<Lineage>)
      ensures r.Err? <==> !NodeExists(nodes, nodeId)
      ensures r.Err? ==> r.error == NotFound("Trace node not found")
      ensures r.Ok? ==> r.value.root == nodes[nodeId]
      ensures r.Ok? ==> r.value.records == Walk(links, dir, depth.GetOr(DefaultDepth), nodeId, 1, {}).records
      ensures r.Ok? ==> forall x :: x in r.value.records ==> 1 <= x.level <= depth.GetOr(DefaultDepth)
      ensures r.Ok? && depth.GetOr(DefaultDepth) <= 0 ==> r.value.records == []
    {
      if !(nodeId in nodes && !nodes[nodeId].deleted) {
        return Err(NotFound("Trace node not found"));
      }
      var root := nodes[nodeId];
      var d := depth.GetOr(DefaultDepth);
      var records, _, _ := Traverse(dir, d, nodeId, 1, {});
      WalkLevels(links, dir, d, nodeId, 1, {});
      r := Ok(Lineage(root, records));
    }
  }

  /** Two live nodes never share a code, so the node `findNodeByCode` returns
      is determined; and it is found under any spelling of its code that
      upper-cases to the same string, its stored code included. */
  lemma FoundUnderAnyCasing(nodes: map<Id, TraceNode>, links: seq<TraceLink>, nextId: Id, id: Id, code: string)
    requires StoreInvariant(nodes, links, nextId)
    requires NodeExists(nodes, id) && Upper(code) == Upper(nodes[id].code)
    ensures forall other :: NodeExists(nodes, other) && nodes[other].code == Upper(code) ==> other == id
    ensures nodes[id].code == Upper(code)
  {
  }
}
