/** Quality inspections of trace nodes and the defects recorded against them. */
module Inspection {
  import opened Common
  import Traceability

  datatype InspectionType = RawMaterial | InProcess | FinishedGood | SerialItem | Container

  datatype InspectionStatus = Passed | Failed | Rework | Pending

  datatype DefectSeverity = Minor | Major | Critical

  /** A quality inspection of one trace node. */
  datatype QualityInspection = QualityInspection(
    id: Id,
    inspectionType: InspectionType,
    nodeId: Id,
    status: InspectionStatus,
    inspectedQuantity: Option<real>,
    notes: Option<string>,
    inspectorId: Option<Id>)

  /** An entry of the defect catalogue. */
  datatype Defect = Defect(id: Id, code: string, name: string, severity: DefectSeverity)

  /** One occurrence of a catalogued defect within an inspection. */
  datatype InspectionDefect = InspectionDefect(
    id: Id,
    inspectionId: Id,
    defectId: Id,
    quantity: real,
    notes: Option<string>)

  datatype CreateInspectionDto = CreateInspectionDto(
    inspectionType: InspectionType,
    nodeId: Id,
    inspectedQuantity: Option<real>,
    notes: Option<string>)

  datatype AddDefectDto = AddDefectDto(defectId: Id, quantity: real, notes: Option<string>)

  /** The smallest defect quantity request validation admits. */
  const MinDefectQuantity: real := 1.0

  /** The status an inspection has after a defect of `severity` is added to it:
      a critical defect fails it, whatever it was; any other leaves it alone. */
  function AfterDefect(status: InspectionStatus, severity: DefectSeverity): (s: InspectionStatus)
    ensures severity == Critical ==> s == Failed
    ensures severity != Critical ==> s == status
  {
    if severity == Critical then Failed else status
  }

  /** The status after a series of defects is added, in order. */
  function AfterDefects(status: InspectionStatus, severities: seq<DefectSeverity>): InspectionStatus
    decreases |severities|
  {
    if severities == [] then status else AfterDefects(AfterDefect(status, severities[0]), severities[1..])
  }

  /** Adding defects fails an inspection exactly when one of them is critical
      or it had already failed; with no critical defect the status is kept. */
  lemma {:induction false} CriticalDefectFailsForGood(status: InspectionStatus, severities: seq<DefectSeverity>)
    ensures AfterDefects(status, severities) == Failed <==> Critical in severities || status == Failed
    ensures Critical !in severities ==> AfterDefects(status, severities) == status
    decreases |severities|
  {
    if severities != [] {
      CriticalDefectFailsForGood(AfterDefect(status, severities[0]), severities[1..]);
      assert severities == [severities[0]] + severities[1..];
    }
  }

  /** The inspection `createInspection` builds: the column default PENDING,
      the node it was asked for, no inspector yet. */
  function NewInspection(id: Id, dto: CreateInspectionDto): (i: QualityInspection)
    ensures i.id == id && i.nodeId == dto.nodeId && i.status == Pending
    ensures i.inspectionType == dto.inspectionType && i.inspectedQuantity == dto.inspectedQuantity && i.notes == dto.notes
    ensures i.inspectorId.None?
  {
    QualityInspection(id, dto.inspectionType, dto.nodeId, Pending, dto.inspectedQuantity, dto.notes, None)
  }

  /** Keys agree with ids and lie below the next fresh id; every inspection
      names a stored trace node and every recorded defect a stored inspection
      and catalogue entry. */
  ghost predicate StoreInvariant(
    inspections: map<Id, QualityInspection>, defects: map<Id, Defect>,
    inspectionDefects: seq<InspectionDefect>, traceNodes: map<Id, Traceability.TraceNode>, nextId: Id)
  {
    && (forall id :: id in inspections ==> inspections[id].id == id && id < nextId && inspections[id].nodeId in traceNodes)
    && (forall k :: 0 <= k < |inspectionDefects| ==>
          && inspectionDefects[k].id < nextId
          && inspectionDefects[k].inspectionId in inspections
          && inspectionDefects[k].defectId in defects)
  }

  class InspectionsService {
    var inspections: map<Id, QualityInspection>
    /** The defect catalogue. */
    var defects: map<Id, Defect>
    var inspectionDefects: seq<InspectionDefect>
    /** The trace nodes a lookup by id resolves; soft-deleted ones are skipped. */
    var traceNodes: map<Id, Traceability.TraceNode>
    var nextId: Id

    ghost predicate Valid()
      reads this
    {
      StoreInvariant(inspections, defects, inspectionDefects, traceNodes, nextId)
    }

    constructor (inspections: map<Id, QualityInspection>, defects: map<Id, Defect>,
                 inspectionDefects: seq<InspectionDefect>, traceNodes: map<Id, Traceability.TraceNode>, nextId: Id)
      requires StoreInvariant(inspections, defects, inspectionDefects, traceNodes, nextId)
      ensures Valid()
      ensures this.inspections == inspections && this.defects == defects
      ensures this.inspectionDefects == inspectionDefects && this.traceNodes == traceNodes && this.nextId == nextId
    {
      this.inspections := inspections;
      this.defects := defects;
      this.inspectionDefects := inspectionDefects;
      this.traceNodes := traceNodes;
      this.nextId := nextId;
    }

    /** `createInspection`: the node must be a live trace node; the new
        inspection references it and starts PENDING. */
    method CreateInspection(dto: CreateInspectionDto) returns (r: Result<QualityInspection>)
      requires Valid()
      modifies this
      ensures Valid()
      ensures defects == old(defects) && inspectionDefects == old(inspectionDefects) && traceNodes == old(traceNodes)
      ensures r.Err? <==> !Traceability.NodeExists(traceNodes, dto.nodeId)
      ensures r.Err? ==> r.error == NotFound("Trace node not found") && inspections == old(inspections) && nextId == old(nextId)
      ensures r.Ok? ==>
                && r.value.id !in old(inspections)
                && r.value == NewInspection(r.value.id, dto)
                && inspections == old(inspections)[r.value.id := r.value]
    {
      if !Traceability.NodeExists(traceNodes, dto.nodeId) {
        return Err(NotFound("Trace node not found"));
      }
      var insp := NewInspection(nextId, dto);
      inspections := inspections[nextId := insp];
      nextId := nextId + 1;
      r := Ok(insp);
    }

    /** `addDefect`: the inspection and then the catalogue defect must exist;
        exactly one defect record is stored, and a critical defect then fails
        the inspection. */
    method AddDefect(inspectionId: Id, dto: AddDefectDto) returns (r: Result<InspectionDefect>)
      requires Valid()
      requires dto.quantity >= MinDefectQuantity
      modifies this
      ensures Valid()
      ensures defects == old(defects) && traceNodes == old(traceNodes)
      ensures inspectionId !in old(inspections) ==> r == Err(NotFound("Inspection not found"))
      ensures inspectionId in old(inspections) && dto.defectId !in defects ==> r == Err(NotFound("Defect not found"))
      ensures r.Ok? <==> inspectionId in old(inspections) && dto.defectId in defects
      ensures r.Err? ==> inspections == old(inspections) && inspectionDefects == old(inspectionDefects) && nextId == old(nextId)
      ensures r.Ok? ==>
                && inspectionId in old(inspections) && dto.defectId in defects
                && r.value == InspectionDefect(r.value.id, inspectionId, dto.defectId, dto.quantity, dto.notes)
                && (forall k :: 0 <= k < |old(inspectionDefects)| ==> old(inspectionDefects)[k].id != r.value.id)
                && inspectionDefects == old(inspectionDefects) + [r.value]
                && inspections == old(inspections)[inspectionId :=
                     old(inspections)[inspectionId].(status := AfterDefect(old(inspections)[inspectionId].status, defects[dto.defectId].severity))]
      ensures r.Ok? && defects[dto.defectId].severity != Critical ==> inspections == old(inspections)
    {
      if inspectionId !in inspections {
        return Err(NotFound("Inspection not found"));
      }
      var insp := inspections[inspectionId];
      if dto.defectId !in defects {
        return Err(NotFound("Defect not found"));
      }
      var defect := defects[dto.defectId];
      var inspDef := InspectionDefect(nextId, inspectionId, dto.defectId, dto.quantity, dto.notes);
      inspectionDefects := inspectionDefects + [inspDef];
      nextId := nextId + 1;
      if defect.severity == Critical {
        insp := insp.(status := Failed);
        inspections := inspections[inspectionId := insp];
      }
      r := Ok(inspDef);
    }

    /** `updateStatus`: any status is stored, without a transition check. */
    method UpdateStatus(id: Id, status: InspectionStatus) returns (r: Result<QualityInspection>)
      requires Valid()
      modifies this
      ensures Valid()
      ensures defects == old(defects) && inspectionDefects == old(inspectionDefects)
      ensures traceNodes == old(traceNodes) && nextId == old(nextId)
      ensures r.Err? <==> id !in old(inspections)
      ensures r.Err? ==> r.error == NotFound("Inspection not found") && inspections == old(inspections)
      ensures r.Ok? ==> r.value == old(inspections)[id].(status := status) && inspections == old(inspections)[id := r.value]
    {
      if id !in inspections {
        return Err(NotFound("Inspection not found"));
      }
      var insp := inspections[id];
      insp := insp.(status := status);
      inspections := inspections[id := insp];
      r := Ok(insp);
    }
  }
}
