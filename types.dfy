/** The domain records and closed enumerations of the appointment application:
    users, medical professionals and appointments ("citas"), the role of an
    authenticated actor, and the partial records ("patches") that an update
    merges into a stored record. */
module Types {

  datatype Option<T> = None | Some(value: T)

  /** What an operation that may throw in JavaScript gives back: a value, or
      the message of the thrown error. */
  datatype Result<T> = Success(value: T) | Failure(error: string)

  // ---------------------------------------------------------------- enums

  /** Status of an appointment. */
  datatype EstadoCita = Pendiente | Confirmada | Cancelada | Completada

  /** The string each status carries at run time. */
  function EstadoCitaValue(e: EstadoCita): string
  {
    match e
    case Pendiente => "pendiente"
    case Confirmada => "confirmada"
    case Cancelada => "cancelada"
    case Completada => "completada"
  }

  const AllEstadosCita: seq<EstadoCita> := [Pendiente, Confirmada, Cancelada, Completada]

  /** The status enumeration is closed and has exactly four distinct members,
      whose run-time strings are pairwise different and never the filter
      keyword "todos". */
  lemma EstadoCitaClosed()
    ensures forall e: EstadoCita :: e in AllEstadosCita
    ensures |AllEstadosCita| == 4
    ensures forall i, j :: 0 <= i < j < |AllEstadosCita| ==> AllEstadosCita[i] != AllEstadosCita[j]
    ensures forall a: EstadoCita, b: EstadoCita :: EstadoCitaValue(a) == EstadoCitaValue(b) ==> a == b
    ensures forall e: EstadoCita :: EstadoCitaValue(e) != "todos"
  {
    forall e: EstadoCita ensures e in AllEstadosCita {
      match e
      case Pendiente => assert AllEstadosCita[0] == e;
      case Confirmada => assert AllEstadosCita[1] == e;
      case Cancelada => assert AllEstadosCita[2] == e;
      case Completada => assert AllEstadosCita[3] == e;
    }
  }

  /** Medical specialty of a professional. */
  datatype Especialidad =
    | Cardiologia | Pediatria | Ginecologia | MedicinaGeneral
    | Traumatologia | Dermatologia | Oftalmologia | Psiquiatria

  function EspecialidadValue(e: Especialidad): string
  {
    match e
    case Cardiologia => "cardiologia"
    case Pediatria => "pediatria"
    case Ginecologia => "ginecologia"
    case MedicinaGeneral => "medicina_general"
    case Traumatologia => "traumatologia"
    case Dermatologia => "dermatologia"
    case Oftalmologia => "oftalmologia"
    case Psiquiatria => "psiquiatria"
  }

  const AllEspecialidades: seq<Especialidad> :=
    [Cardiologia, Pediatria, Ginecologia, MedicinaGeneral,
     Traumatologia, Dermatologia, Oftalmologia, Psiquiatria]

  /** Exactly eight distinct specialties, with pairwise different strings. */
  lemma EspecialidadClosed()
    ensures forall e: Especialidad :: e in AllEspecialidades
    ensures |AllEspecialidades| == 8
    ensures forall i, j :: 0 <= i < j < |AllEspecialidades| ==> AllEspecialidades[i] != AllEspecialidades[j]
    ensures forall a: Especialidad, b: Especialidad :: EspecialidadValue(a) == EspecialidadValue(b) ==> a == b
  {
    forall e: Especialidad ensures e in AllEspecialidades {
      match e
      case Cardiologia => assert AllEspecialidades[0] == e;
      case Pediatria => assert AllEspecialidades[1] == e;
      case Ginecologia => assert AllEspecialidades[2] == e;
      case MedicinaGeneral => assert AllEspecialidades[3] == e;
      case Traumatologia => assert AllEspecialidades[4] == e;
      case Dermatologia => assert AllEspecialidades[5] == e;
      case Oftalmologia => assert AllEspecialidades[6] == e;
      case Psiquiatria => assert AllEspecialidades[7] == e;
    }
  }

  /** Availability of a professional. */
  datatype EstadoProfesional = Activo | Inactivo | Vacaciones

  function EstadoProfesionalValue(e: EstadoProfesional): string
  {
    match e
    case Activo => "activo"
    case Inactivo => "inactivo"
    case Vacaciones => "vacaciones"
  }

  const AllEstadosProfesional: seq<EstadoProfesional> := [Activo, Inactivo, Vacaciones]

  /** Exactly three distinct professional statuses; only `Activo` has the
      string "activo". */
  lemma EstadoProfesionalClosed()
    ensures forall e: EstadoProfesional :: e in AllEstadosProfesional
    ensures |AllEstadosProfesional| == 3
    ensures forall i, j :: 0 <= i < j < |AllEstadosProfesional| ==> AllEstadosProfesional[i] != AllEstadosProfesional[j]
    ensures forall e: EstadoProfesional :: EstadoProfesionalValue(e) == "activo" <==> e == Activo
  {
    forall e: EstadoProfesional ensures e in AllEstadosProfesional {
      match e
      case Activo => assert AllEstadosProfesional[0] == e;
      case Inactivo => assert AllEstadosProfesional[1] == e;
      case Vacaciones => assert AllEstadosProfesional[2] == e;
    }
  }

  /** The role of an authenticated actor: exactly "admin" or "usuario". */
  datatype Role = RoleAdmin | RoleUsuario

  /** The string each role carries at run time. */
  function RoleValue(r: Role): string
  {
    match r
    case RoleAdmin => "admin"
    case RoleUsuario => "usuario"
  }

  // -------------------------------------------------------------- records

  /** A stored user. The password is optional, so a record with the password
      stripped is still a user. */
  datatype Usuario = Usuario(id: int, nombre: string, email: string, documento: string, password: Option<string>)

  datatype Profesional = Profesional(id: int, nombre: string, especialidad: Especialidad, telefono: string, estado: EstadoProfesional)

  /** A stored appointment: only the fields the store keeps. */
  datatype Cita = Cita(id: int, fecha: string, hora: string, estado: EstadoCita, profesionalId: int, usuarioId: int)

  /** An appointment as a read returns it: the stored record plus the display
      fields derived, at read time, from the referenced professional and user. */
  datatype CitaView = CitaView(
    cita: Cita,
    profesionalNombre: Option<string>,
    profesionalEspecialidad: Option<Especialidad>,
    usuarioNombre: Option<string>)

  /** The authenticated actor. */
  datatype AuthUser = AuthUser(id: int, nombre: string, email: string, role: Role)

  function UsuarioId(u: Usuario): int { u.id }
  function ProfesionalId(p: Profesional): int { p.id }
  function CitaId(c: Cita): int { c.id }

  /** The same user with no password in the record. */
  function StripPassword(u: Usuario): (r: Usuario)
    ensures r.password.None?
    ensures r.(password := u.password) == u
  {
    u.(password := None)
  }

  // ------------------------------------------- records without an id (create)

  datatype UsuarioInput = UsuarioInput(nombre: string, email: string, documento: string, password: Option<string>)
  {
    function WithId(id: int): Usuario { Usuario(id, nombre, email, documento, password) }
  }

  datatype ProfesionalInput = ProfesionalInput(nombre: string, especialidad: Especialidad, telefono: string, estado: EstadoProfesional)
  {
    function WithId(id: int): Profesional { Profesional(id, nombre, especialidad, telefono, estado) }
  }

  datatype CitaInput = CitaInput(fecha: string, hora: string, estado: EstadoCita, profesionalId: int, usuarioId: int)
  {
    function WithId(id: int): Cita { Cita(id, fecha, hora, estado, profesionalId, usuarioId) }
  }

  // ------------------------------------------------ partial records (update)

  /** The value a shallow merge gives one field: the patch's if it has one. */
  function Pick<T>(patch: Option<T>, current: T): T
  {
    if patch.Some? then patch.value else current
  }

  /** The patch whose fields override those of `p` where `q` has them
      (object spread `{...p, ...q}`). */
  function Later<T>(p: Option<T>, q: Option<T>): Option<T>
  {
    if q.Some? then q else p
  }

  datatype UsuarioPatch = UsuarioPatch(
    id: Option<int>, nombre: Option<string>, email: Option<string>,
    documento: Option<string>, password: Option<string>)

  datatype ProfesionalPatch = ProfesionalPatch(
    id: Option<int>, nombre: Option<string>, especialidad: Option<Especialidad>,
    telefono: Option<string>, estado: Option<EstadoProfesional>)

  datatype CitaPatch = CitaPatch(
    id: Option<int>, fecha: Option<string>, hora: Option<string>,
    estado: Option<EstadoCita>, profesionalId: Option<int>, usuarioId: Option<int>)

  const EmptyUsuarioPatch := UsuarioPatch(None, None, None, None, None)
  const EmptyProfesionalPatch := ProfesionalPatch(None, None, None, None, None)
  const EmptyCitaPatch := CitaPatch(None, None, None, None, None, None)

  /** `{ ...u, ...p }`: each field the patch carries overrides, each field it
      leaves out keeps the stored value. */
  function MergeUsuario(u: Usuario, p: UsuarioPatch): (r: Usuario)
    ensures p.id.Some? ==> r.id == p.id.value
    ensures p.id.None? ==> r.id == u.id
    ensures p.nombre.Some? ==> r.nombre == p.nombre.value
    ensures p.nombre.None? ==> r.nombre == u.nombre
    ensures p.email.Some? ==> r.email == p.email.value
    ensures p.email.None? ==> r.email == u.email
    ensures p.documento.Some? ==> r.documento == p.documento.value
    ensures p.documento.None? ==> r.documento == u.documento
    ensures p.password.Some? ==> r.password == p.password
    ensures p.password.None? ==> r.password == u.password
  {
    Usuario(Pick(p.id, u.id), Pick(p.nombre, u.nombre), Pick(p.email, u.email),
            Pick(p.documento, u.documento), Later(u.password, p.password))
  }

  function SpreadUsuarioPatch(p: UsuarioPatch, q: UsuarioPatch): UsuarioPatch
  {
    UsuarioPatch(Later(p.id, q.id), Later(p.nombre, q.nombre), Later(p.email, q.email),
                 Later(p.documento, q.documento), Later(p.password, q.password))
  }

  /** `{ ...p, ...q }`: each field the patch carries overrides, each field it
      leaves out keeps the stored value. */
  function MergeProfesional(p: Profesional, q: ProfesionalPatch): (r: Profesional)
    ensures q.id.Some? ==> r.id == q.id.value
    ensures q.id.None? ==> r.id == p.id
    ensures q.nombre.Some? ==> r.nombre == q.nombre.value
    ensures q.nombre.None? ==> r.nombre == p.nombre
    ensures q.especialidad.Some? ==> r.especialidad == q.especialidad.value
    ensures q.especialidad.None? ==> r.especialidad == p.especialidad
    ensures q.telefono.Some? ==> r.telefono == q.telefono.value
    ensures q.telefono.None? ==> r.telefono == p.telefono
    ensures q.estado.Some? ==> r.estado == q.estado.value
    ensures q.estado.None? ==> r.estado == p.estado
  {
    Profesional(Pick(q.id, p.id), Pick(q.nombre, p.nombre), Pick(q.especialidad, p.especialidad),
                Pick(q.telefono, p.telefono), Pick(q.estado, p.estado))
  }

  function SpreadProfesionalPatch(p: ProfesionalPatch, q: ProfesionalPatch): ProfesionalPatch
  {
    ProfesionalPatch(Later(p.id, q.id), Later(p.nombre, q.nombre), Later(p.especialidad, q.especialidad),
                     Later(p.telefono, q.telefono), Later(p.estado, q.estado))
  }

  /** `{ ...c, ...p }`: each field the patch carries overrides, each field it
      leaves out keeps the stored value. */
  function MergeCita(c: Cita, p: CitaPatch): (r: Cita)
    ensures p.id.Some? ==> r.id == p.id.value
    ensures p.id.None? ==> r.id == c.id
    ensures p.fecha.Some? ==> r.fecha == p.fecha.value
    ensures p.fecha.None? ==> r.fecha == c.fecha
    ensures p.hora.Some? ==> r.hora == p.hora.value
    ensures p.hora.None? ==> r.hora == c.hora
    ensures p.estado.Some? ==> r.estado == p.estado.value
    ensures p.estado.None? ==> r.estado == c.estado
    ensures p.profesionalId.Some? ==> r.profesionalId == p.profesionalId.value
    ensures p.profesionalId.None? ==> r.profesionalId == c.profesionalId
    ensures p.usuarioId.Some? ==> r.usuarioId == p.usuarioId.value
    ensures p.usuarioId.None? ==> r.usuarioId == c.usuarioId
  {
    Cita(Pick(p.id, c.id), Pick(p.fecha, c.fecha), Pick(p.hora, c.hora), Pick(p.estado, c.estado),
         Pick(p.profesionalId, c.profesionalId), Pick(p.usuarioId, c.usuarioId))
  }

  function SpreadCitaPatch(p: CitaPatch, q: CitaPatch): CitaPatch
  {
    CitaPatch(Later(p.id, q.id), Later(p.fecha, q.fecha), Later(p.hora, q.hora),
              Later(p.estado, q.estado), Later(p.profesionalId, q.profesionalId),
              Later(p.usuarioId, q.usuarioId))
  }

  /** Shallow merge of a user: the empty patch changes nothing, merging twice
      is merging once, two merges in a row are one merge of the spread patches,
      and the name, password and id are kept when the patch leaves them out
      (every field is covered by `MergeUsuario`'s own contract). */
  lemma MergeUsuarioLaws(u: Usuario, p: UsuarioPatch, q: UsuarioPatch)
    ensures MergeUsuario(u, EmptyUsuarioPatch) == u
    ensures MergeUsuario(MergeUsuario(u, p), p) == MergeUsuario(u, p)
    ensures MergeUsuario(MergeUsuario(u, p), q) == MergeUsuario(u, SpreadUsuarioPatch(p, q))
    ensures p.nombre.None? ==> MergeUsuario(u, p).nombre == u.nombre
    ensures p.password.None? ==> MergeUsuario(u, p).password == u.password
    ensures p.id.None? ==> MergeUsuario(u, p).id == u.id
  {
  }

  /** The same laws for a professional; the status and id are kept when the
      patch leaves them out (every field: `MergeProfesional`). */
  lemma MergeProfesionalLaws(x: Profesional, p: ProfesionalPatch, q: ProfesionalPatch)
    ensures MergeProfesional(x, EmptyProfesionalPatch) == x
    ensures MergeProfesional(MergeProfesional(x, p), p) == MergeProfesional(x, p)
    ensures MergeProfesional(MergeProfesional(x, p), q) == MergeProfesional(x, SpreadProfesionalPatch(p, q))
    ensures p.estado.None? ==> MergeProfesional(x, p).estado == x.estado
    ensures p.id.None? ==> MergeProfesional(x, p).id == x.id
  {
  }

  /** Shallow merge of an appointment; a status-only patch sets the status
      and keeps the professional and the patient, whatever the old status was
      (no transition is checked); a patch without an id keeps the id (every
      field: `MergeCita`). */
  lemma MergeCitaLaws(c: Cita, p: CitaPatch, q: CitaPatch, e: EstadoCita)
    ensures MergeCita(c, EmptyCitaPatch) == c
    ensures MergeCita(MergeCita(c, p), p) == MergeCita(c, p)
    ensures MergeCita(MergeCita(c, p), q) == MergeCita(c, SpreadCitaPatch(p, q))
    ensures var s := MergeCita(c, EmptyCitaPatch.(estado := Some(e)));
            s.estado == e && s.id == c.id && s.profesionalId == c.profesionalId && s.usuarioId == c.usuarioId
    ensures p.id.None? ==> MergeCita(c, p).id == c.id
  {
  }
}
