/** Shop-floor operators: their two unique keys (`codigo` and
    `numeroEmpleado`), their status and the list of machines each may run. */
module Operadores {
  import opened Common

  datatype EstadoOperador = Activo | Inactivo | Vacaciones | BajaTemporal | BajaDefinitiva

  datatype NivelHabilidad = Aprendiz | Basico | Intermedio | Avanzado | Experto

  /** An operator; `deleted` is the soft-delete mark. */
  datatype Operador = Operador(
    id: Id,
    codigo: string,
    numeroEmpleado: Option<string>,
    nombre: string,
    apellidos: string,
    email: Option<string>,
    telefono: Option<string>,
    estado: EstadoOperador,
    nivelHabilidad: NivelHabilidad,
    departamento: Option<string>,
    puesto: Option<string>,
    turnoId: Option<Id>,
    workCenterId: Option<Id>,
    supervisorId: Option<Id>,
    maquinasAutorizadas: Option<seq<Id>>,
    notas: Option<string>,
    deleted: bool)

  datatype CreateOperadorDto = CreateOperadorDto(
    codigo: string,
    numeroEmpleado: Option<string>,
    nombre: string,
    apellidos: string,
    email: Option<string>,
    telefono: Option<string>,
    estado: Option<EstadoOperador>,
    nivelHabilidad: Option<NivelHabilidad>,
    departamento: Option<string>,
    puesto: Option<string>,
    turnoId: Option<Id>,
    workCenterId: Option<Id>,
    supervisorId: Option<Id>,
    maquinasAutorizadas: Option<seq<Id>>,
    notas: Option<string>)

  /** The creation request with every field optional. */
  datatype UpdateOperadorDto = UpdateOperadorDto(
    codigo: Option<string>,
    numeroEmpleado: Option<string>,
    nombre: Option<string>,
    apellidos: Option<string>,
    email: Option<string>,
    telefono: Option<string>,
    estado: Option<EstadoOperador>,
    nivelHabilidad: Option<NivelHabilidad>,
    departamento: Option<string>,
    puesto: Option<string>,
    turnoId: Option<Id>,
    workCenterId: Option<Id>,
    supervisorId: Option<Id>,
    maquinasAutorizadas: Option<seq<Id>>,
    notas: Option<string>)

  function CodigoConflict(codigo: string): Error {
    Conflict("Ya existe un operador con el código " + codigo)
  }

  function NumeroConflict(numero: string): Error {
    Conflict("Ya existe un operador con el número de empleado " + numero)
  }

  const OperadorNotFound := NotFound("Operador no encontrado")

  // ---------------------------------------------------------------------------
  // Authorised machines
  // ---------------------------------------------------------------------------

  /** The list `asignarMaquina` leaves: an absent list starts empty, and the
      machine is appended unless already present (so assigning twice is
      assigning once). */
  function Assigned(list: Option<seq<Id>>, m: Id): (r: seq<Id>)
    ensures m in r
    ensures forall x :: x in r <==> x == m || (list.Some? && x in list.value)
    ensures list.None? ==> r == [m]
    ensures list.Some? && m in list.value ==> r == list.value
    ensures list.Some? && m !in list.value ==> r == list.value + [m]
  {
    var current := list.GetOr([]);
    if m in current then current else current + [m]
  }

  /** `s` without any occurrence of `m`, the rest in their original order. */
  function Removed(s: seq<Id>, m: Id): (r: seq<Id>)
    ensures forall x :: x in r <==> x in s && x != m
    ensures |r| <= |s|
  {
    if s == [] then []
    else (if s[0] == m then [] else [s[0]]) + Removed(s[1..], m)
  }

  /** Removal works piecewise, so the entries that stay keep their relative order. */
  lemma {:induction false} RemovedConcat(a: seq<Id>, b: seq<Id>, m: Id)
    ensures Removed(a + b, m) == Removed(a, m) + Removed(b, m)
    decreases |a|
  {
    if a != [] {
      RemovedConcat(a[1..], b, m);
      assert (a + b)[1..] == a[1..] + b;
      assert (a + b)[0] == a[0];
    } else {
      assert a + b == b;
    }
  }

  /** Removing a machine that is not listed leaves the list as it was. */
  lemma {:induction false} RemovedAbsent(s: seq<Id>, m: Id)
    requires m !in s
    ensures Removed(s, m) == s
    decreases |s|
  {
    if s != [] {
      RemovedAbsent(s[1..], m);
      assert s == [s[0]] + s[1..];
    }
  }

  /** For a list without `m`, authorising and then withdrawing `m` restores
      the original list. */
  lemma AssignThenRemove(s: seq<Id>, m: Id)
    requires m !in s
    ensures Removed(Assigned(Some(s), m), m) == s
  {
    RemovedConcat(s, [m], m);
    RemovedAbsent(s, m);
    assert Removed([m], m) == [];
  }

  // ---------------------------------------------------------------------------
  // Creation and update
  // ---------------------------------------------------------------------------

  /** The operator `create` builds: the request's fields, with the column
      defaults ACTIVO and BASICO where estado and skill level are absent. */
  function NewOperador(id: Id, dto: CreateOperadorDto): (op: Operador)
    ensures op.id == id && op.codigo == dto.codigo && op.numeroEmpleado == dto.numeroEmpleado
    ensures op.estado == dto.estado.GetOr(Activo) && op.nivelHabilidad == dto.nivelHabilidad.GetOr(Basico)
    ensures op.maquinasAutorizadas == dto.maquinasAutorizadas && !op.deleted
  {
    Operador(id, dto.codigo, dto.numeroEmpleado, dto.nombre, dto.apellidos, dto.email, dto.telefono,
             dto.estado.GetOr(Activo), dto.nivelHabilidad.GetOr(Basico), dto.departamento, dto.puesto,
             dto.turnoId, dto.workCenterId, dto.supervisorId, dto.maquinasAutorizadas, dto.notas, false)
  }

  /** `Object.assign(operador, dto)`: every field the request carries
      overwrites the stored one, the others stay. */
  function Merged(op: Operador, dto: UpdateOperadorDto): (r: Operador)
    ensures r.id == op.id && r.deleted == op.deleted
    ensures dto.codigo.Some? ==> r.codigo == dto.codigo.value
    ensures dto.codigo.None? ==> r.codigo == op.codigo
    ensures dto.numeroEmpleado.Some? ==> r.numeroEmpleado == dto.numeroEmpleado
    ensures dto.numeroEmpleado.None? ==> r.numeroEmpleado == op.numeroEmpleado
    ensures dto.nombre.Some? ==> r.nombre == dto.nombre.value
    ensures dto.nombre.None? ==> r.nombre == op.nombre
    ensures dto.apellidos.Some? ==> r.apellidos == dto.apellidos.value
    ensures dto.apellidos.None? ==> r.apellidos == op.apellidos
    ensures dto.email.Some? ==> r.email == dto.email
    ensures dto.email.None? ==> r.email == op.email
    ensures dto.telefono.Some? ==> r.telefono == dto.telefono
    ensures dto.telefono.None? ==> r.telefono == op.telefono
    ensures dto.estado.Some? ==> r.estado == dto.estado.value
    ensures dto.estado.None? ==> r.estado == op.estado
    ensures dto.nivelHabilidad.Some? ==> r.nivelHabilidad == dto.nivelHabilidad.value
    ensures dto.nivelHabilidad.None? ==> r.nivelHabilidad == op.nivelHabilidad
    ensures dto.departamento.Some? ==> r.departamento == dto.departamento
    ensures dto.departamento.None? ==> r.departamento == op.departamento
    ensures dto.puesto.Some? ==> r.puesto == dto.puesto
    ensures dto.puesto.None? ==> r.puesto == op.puesto
    ensures dto.turnoId.Some? ==> r.turnoId == dto.turnoId
    ensures dto.turnoId.None? ==> r.turnoId == op.turnoId
    ensures dto.workCenterId.Some? ==> r.workCenterId == dto.workCenterId
    ensures dto.workCenterId.None? ==> r.workCenterId == op.workCenterId
    ensures dto.supervisorId.Some? ==> r.supervisorId == dto.supervisorId
    ensures dto.supervisorId.None? ==> r.supervisorId == op.supervisorId
    ensures dto.maquinasAutorizadas.Some? ==> r.maquinasAutorizadas == dto.maquinasAutorizadas
    ensures dto.maquinasAutorizadas.None? ==> r.maquinasAutorizadas == op.maquinasAutorizadas
    ensures dto.notas.Some? ==> r.notas == dto.notas
    ensures dto.notas.None? ==> r.notas == op.notas
    ensures dto == UpdateOperadorDto(None, None, None, None, None, None, None, None, None, None, None, None, None, None, None) ==> r == op
  {
    Operador(op.id, dto.codigo.GetOr(op.codigo), dto.numeroEmpleado.Or(op.numeroEmpleado),
             dto.nombre.GetOr(op.nombre), dto.apellidos.GetOr(op.apellidos), dto.email.Or(op.email),
             dto.telefono.Or(op.telefono), dto.estado.GetOr(op.estado), dto.nivelHabilidad.GetOr(op.nivelHabilidad),
             dto.departamento.Or(op.departamento), dto.puesto.Or(op.puesto), dto.turnoId.Or(op.turnoId),
             dto.workCenterId.Or(op.workCenterId), dto.supervisorId.Or(op.supervisorId),
             dto.maquinasAutorizadas.Or(op.maquinasAutorizadas), dto.notas.Or(op.notas), op.deleted)
  }

  /** `update` checks the codigo when the request carries a non-empty one
      that differs from the stored one. */
  predicate ChangesCodigo(op: Operador, dto: UpdateOperadorDto) {
    Truthy(dto.codigo) && dto.codigo.value != op.codigo
  }

  /** `update` checks the employee number when the request carries a
      non-empty one that differs from the stored one (or there is none). */
  predicate ChangesNumero(op: Operador, dto: UpdateOperadorDto) {
    Truthy(dto.numeroEmpleado) && dto.numeroEmpleado != op.numeroEmpleado
  }

  // ---------------------------------------------------------------------------
  // The store
  // ---------------------------------------------------------------------------

  predicate OperadorExists(ops: map<Id, Operador>, id: Id) {
    id in ops && !ops[id].deleted
  }

  /** Some operator, soft-deleted ones included, has this codigo. */
  ghost predicate CodigoTaken(ops: map<Id, Operador>, codigo: string) {
    exists id :: id in ops && ops[id].codigo == codigo
  }

  /** Some operator, soft-deleted ones included, has this employee number. */
  ghost predicate NumeroTaken(ops: map<Id, Operador>, numero: string) {
    exists id :: id in ops && ops[id].numeroEmpleado == Some(numero)
  }

  /** Keys agree with ids and lie below the next fresh id; the table's two
      unique indexes hold over all rows (a missing employee number is a
      NULL, which the index does not compare). */
  ghost predicate StoreInvariant(ops: map<Id, Operador>, nextId: Id) {
    && (forall id :: id in ops ==> ops[id].id == id && id < nextId)
    && (forall a, b :: a in ops && b in ops && ops[a].codigo == ops[b].codigo ==> a == b)
    && (forall a, b :: a in ops && b in ops && ops[a].numeroEmpleado.Some? && ops[a].numeroEmpleado == ops[b].numeroEmpleado ==> a == b)
  }

  /** An update that carries an empty employee number skips the number
      check; the unique index then refuses it when another operator already
      has the empty number. */
  ghost predicate EmptyNumeroClashes(ops: map<Id, Operador>, id: Id, dto: UpdateOperadorDto)
    requires id in ops
  {
    dto.numeroEmpleado == Some("") && ops[id].numeroEmpleado != Some("") && NumeroTaken(ops, "")
  }

  class OperadoresService {
    var operadores: map<Id, Operador>
    var nextId: Id

    ghost predicate Valid()
      reads this
    {
      StoreInvariant(operadores, nextId)
    }

    constructor (operadores: map<Id, Operador>, nextId: Id)
      requires StoreInvariant(operadores, nextId)
      ensures Valid() && this.operadores == operadores && this.nextId == nextId
    {
      this.operadores := operadores;
      this.nextId := nextId;
    }

    /** `create`: the codigo must be unused (soft-deleted operators included);
        a non-empty employee number must be too. An empty employee number skips
        that check and is then refused by the unique index if another operator
        has it (an internal error). */
    method Create(dto: CreateOperadorDto) returns (r: Result<Operador>)
      requires Valid()
      requires dto.codigo != "" && dto.nombre != "" && dto.apellidos != ""
      modifies this
      ensures Valid()
      ensures CodigoTaken(old(operadores), dto.codigo) ==> r == Err(CodigoConflict(dto.codigo))
      ensures !CodigoTaken(old(operadores), dto.codigo) && Truthy(dto.numeroEmpleado) && NumeroTaken(old(operadores), dto.numeroEmpleado.value) ==>
                r == Err(NumeroConflict(dto.numeroEmpleado.value))
      ensures !CodigoTaken(old(operadores), dto.codigo) && dto.numeroEmpleado == Some("") && NumeroTaken(old(operadores), "") ==>
                r == Err(Internal("Internal server error"))
      ensures r.Ok? <==> !CodigoTaken(old(operadores), dto.codigo) && (dto.numeroEmpleado.None? || !NumeroTaken(old(operadores), dto.numeroEmpleado.value))
      ensures r.Err? ==> operadores == old(operadores) && nextId == old(nextId)
      ensures r.Ok? ==>
                && r.value.id !in old(operadores)
                && r.value == NewOperador(r.value.id, dto)
                && operadores == old(operadores)[r.value.id := r.value]
    {
      if exists id :: id in operadores && operadores[id].codigo == dto.codigo {
        return Err(CodigoConflict(dto.codigo));
      }
      if Truthy(dto.numeroEmpleado) {
        if exists id :: id in operadores && operadores[id].numeroEmpleado == dto.numeroEmpleado {
          return Err(NumeroConflict(dto.numeroEmpleado.value));
        }
      }
      var op := NewOperador(nextId, dto);
      // The save: the unique index on the employee number.
      if op.numeroEmpleado.Some? && exists id :: id in operadores && operadores[id].numeroEmpleado == op.numeroEmpleado {
        return Err(Internal("Internal server error"));
      }
      operadores := operadores[nextId := op];
      nextId := nextId + 1;
      r := Ok(op);
    }

    /** `findOne`: the live operator with that id. */
    method FindOne(id: Id) returns (r: Result<Operador>)
      ensures r.Ok? <==> OperadorExists(operadores, id)
      ensures r.Ok? ==> r.value == operadores[id]
      ensures r.Err? ==> r.error == OperadorNotFound
    {
      if id in operadores && !operadores[id].deleted {
        r := Ok(operadores[id]);
      } else {
        r := Err(OperadorNotFound);
      }
    }

    /** `update`: a changed codigo, and then a changed employee number, must
        be unused (soft-deleted operators included); then the request is
        merged into the operator. An empty employee number skips its check and
        is refused by the unique index if another operator has it. */
    method Update(id: Id, dto: UpdateOperadorDto) returns (r: Result<Operador>)
      requires Valid()
      requires dto.codigo != Some("") && dto.nombre != Some("") && dto.apellidos != Some("")
      modifies this
      ensures Valid()
      ensures nextId == old(nextId)
      ensures !OperadorExists(old(operadores), id) ==> r == Err(OperadorNotFound)
      ensures OperadorExists(old(operadores), id) && ChangesCodigo(old(operadores)[id], dto) && CodigoTaken(old(operadores), dto.codigo.value) ==>
                r == Err(CodigoConflict(dto.codigo.value))
      ensures OperadorExists(old(operadores), id) && !(ChangesCodigo(old(operadores)[id], dto) && CodigoTaken(old(operadores), dto.codigo.value))
              && ChangesNumero(old(operadores)[id], dto) && NumeroTaken(old(operadores), dto.numeroEmpleado.value) ==>
                r == Err(NumeroConflict(dto.numeroEmpleado.value))
      ensures (&& OperadorExists(old(operadores), id)
               && !(ChangesCodigo(old(operadores)[id], dto) && CodigoTaken(old(operadores), dto.codigo.value))
               && !(ChangesNumero(old(operadores)[id], dto) && NumeroTaken(old(operadores), dto.numeroEmpleado.value))
               && EmptyNumeroClashes(old(operadores), id, dto)) ==>
                r == Err(Internal("Internal server error"))
      ensures r.Ok? <==>
                && OperadorExists(old(operadores), id)
                && !(ChangesCodigo(old(operadores)[id], dto) && CodigoTaken(old(operadores), dto.codigo.value))
                && !(ChangesNumero(old(operadores)[id], dto) && NumeroTaken(old(operadores), dto.numeroEmpleado.value))
                && !EmptyNumeroClashes(old(operadores), id, dto)
      ensures r.Err? && r.error.Conflict? ==>
                && OperadorExists(old(operadores), id)
                && ((ChangesCodigo(old(operadores)[id], dto) && CodigoTaken(old(operadores), dto.codigo.value))
                    || (ChangesNumero(old(operadores)[id], dto) && NumeroTaken(old(operadores), dto.numeroEmpleado.value)))
      ensures r.Err? ==> operadores == old(operadores)
      ensures r.Ok? ==>
                && OperadorExists(old(operadores), id)
                && r.value == Merged(old(operadores)[id], dto)
                && operadores == old(operadores)[id := r.value]
    {
      var found := FindOne(id);
      if found.Err? {
        return found;
      }
      var op := found.value;
      if Truthy(dto.codigo) && dto.codigo.value != op.codigo {
        if exists other :: other in operadores && operadores[other].codigo == dto.codigo.value {
          return Err(CodigoConflict(dto.codigo.value));
        }
      }
      if Truthy(dto.numeroEmpleado) && dto.numeroEmpleado != op.numeroEmpleado {
        if exists other :: other in operadores && operadores[other].numeroEmpleado == dto.numeroEmpleado {
          return Err(NumeroConflict(dto.numeroEmpleado.value));
        }
      }
      op := Merged(op, dto);
      // The save: the unique index on the employee number.
      if op.numeroEmpleado.Some? && exists other :: other in operadores && other != id && operadores[other].numeroEmpleado == op.numeroEmpleado {
        return Err(Internal("Internal server error"));
      }
      operadores := operadores[id := op];
      r := Ok(op);
    }

    /** `cambiarEstado`: any status is stored, without a transition check. */
    method CambiarEstado(id: Id, estado: EstadoOperador) returns (r: Result<Operador>)
      requires Valid()
      modifies this
      ensures Valid()
      ensures nextId == old(nextId)
      ensures r.Err? <==> !OperadorExists(old(operadores), id)
      ensures r.Err? ==> r.error == OperadorNotFound && operadores == old(operadores)
      ensures r.Ok? ==> r.value == old(operadores)[id].(estado := estado) && operadores == old(operadores)[id := r.value]
    {
      var found := FindOne(id);
      if found.Err? {
        return found;
      }
      var op := found.value;
      op := op.(estado := estado);
      operadores := operadores[id := op];
      r := Ok(op);
    }

    /** `asignarMaquina`: an absent list is first made empty, then the machine
        is appended unless it is already authorised. */
    method AsignarMaquina(id: Id, maquinaId: Id) returns (r: Result<Operador>)
      requires Valid()
      modifies this
      ensures Valid()
      ensures nextId == old(nextId)
      ensures r.Err? <==> !OperadorExists(old(operadores), id)
      ensures r.Err? ==> r.error == OperadorNotFound && operadores == old(operadores)
      ensures r.Ok? ==>
                && r.value == old(operadores)[id].(maquinasAutorizadas := Some(Assigned(old(operadores)[id].maquinasAutorizadas, maquinaId)))
                && operadores == old(operadores)[id := r.value]
    {
      var found := FindOne(id);
      if found.Err? {
        return found;
      }
      var op := found.value;
      if op.maquinasAutorizadas.None? {
        op := op.(maquinasAutorizadas := Some([]));
      }
      if maquinaId !in op.maquinasAutorizadas.value {
        op := op.(maquinasAutorizadas := Some(op.maquinasAutorizadas.value + [maquinaId]));
      }
      operadores := operadores[id := op];
      r := Ok(op);
    }

    /** `removerMaquina`: every occurrence of the machine is filtered out of a
        present list; an absent list stays absent. */
    method RemoverMaquina(id: Id, maquinaId: Id) returns (r: Result<Operador>)
      requires Valid()
      modifies this
      ensures Valid()
      ensures nextId == old(nextId)
      ensures r.Err? <==> !OperadorExists(old(operadores), id)
      ensures r.Err? ==> r.error == OperadorNotFound && operadores == old(operadores)
      ensures r.Ok? && old(operadores)[id].maquinasAutorizadas.None? ==> r.value == old(operadores)[id]
      ensures r.Ok? && old(operadores)[id].maquinasAutorizadas.Some? ==>
                r.value == old(operadores)[id].(maquinasAutorizadas := Some(Removed(old(operadores)[id].maquinasAutorizadas.value, maquinaId)))
      ensures r.Ok? ==> operadores == old(operadores)[id := r.value]
    {
      var found := FindOne(id);
      if found.Err? {
        return found;
      }
      var op := found.value;
      if op.maquinasAutorizadas.Some? {
        op := op.(maquinasAutorizadas := Some(Removed(op.maquinasAutorizadas.value, maquinaId)));
      }
      operadores := operadores[id := op];
      r := Ok(op);
    }
  }
}
