/** The mock API: three in-memory tables (users, professionals, appointments)
    that stand in for the database, with authentication and create / read /
    update / delete on each table. Every call is one atomic step. */
module Api {
  import opened Types
  import opened Table

  const AdminEmail := "admin@hospital.com"
  const InvalidCredentials := "Credenciales inválidas"
  const EmailTaken := "El email ya está registrado"
  const DocumentoTaken := "El documento ya está registrado"
  const UsuarioNotFound := "Usuario no encontrado"
  const ProfesionalNotFound := "Profesional no encontrado"
  const CitaNotFound := "Cita no encontrada"

  /** `{ success, user?, message? }` as login and register return it. */
  datatype AuthResponse = AuthResponse(success: bool, user: Option<AuthUser>, message: Option<string>)

  function Accepted(u: AuthUser): AuthResponse { AuthResponse(true, Some(u), None) }
  function Rejected(message: string): AuthResponse { AuthResponse(false, None, Some(message)) }

  // ------------------------------------------------------------- seed data

  const SeedUsuarios: seq<Usuario> := [
    Usuario(1, "Admin Sistema", "admin@hospital.com", "12345678", Some("admin123")),
    Usuario(2, "Juan Pérez", "juan@email.com", "87654321", Some("user123")),
    Usuario(3, "María González", "maria@email.com", "11223344", Some("user123"))
  ]

  const SeedProfesionales: seq<Profesional> := [
    Profesional(1, "Dr. Carlos Rodríguez", Cardiologia, "555-0001", Activo),
    Profesional(2, "Dra. Ana Martínez", Pediatria, "555-0002", Activo),
    Profesional(3, "Dr. Luis Fernández", Traumatologia, "555-0003", Activo),
    Profesional(4, "Dra. Carmen Silva", Ginecologia, "555-0004", Activo)
  ]

  const SeedCitas: seq<Cita> := [
    Cita(1, "2026-02-05", "09:00", Confirmada, 1, 2),
    Cita(2, "2026-02-05", "10:00", Pendiente, 2, 3),
    Cita(3, "2026-02-06", "14:00", Confirmada, 3, 2)
  ]

  function UsuarioEmail(u: Usuario): string { u.email }
  function UsuarioDocumento(u: Usuario): string { u.documento }

  // --------------------------------------------------------- authentication

  /** The authenticated view of a stored user; the role is decided by the
      email alone. */
  function AuthOf(u: Usuario): (a: AuthUser)
    ensures a.id == u.id && a.nombre == u.nombre && a.email == u.email
    ensures a.role == RoleAdmin <==> u.email == AdminEmail
    ensures RoleValue(a.role) == if u.email == AdminEmail then "admin" else "usuario"
  {
    AuthUser(u.id, u.nombre, u.email, if u.email == AdminEmail then RoleAdmin else RoleUsuario)
  }

  /** `login(email, password)`: the first user whose email and password both
      match is authenticated; otherwise the credentials are refused. */
  function LoginResponse(us: seq<Usuario>, email: string, password: string): (r: AuthResponse)
    ensures r.success <==> exists i :: 0 <= i < |us| && us[i].email == email && us[i].password == Some(password)
    ensures r.success ==> r.message.None? && r.user.Some? && r.user.value.email == email
    ensures r.success ==> (r.user.value.role == RoleAdmin <==> email == AdminEmail)
    ensures r.success ==> exists i :: 0 <= i < |us| && us[i].email == email && us[i].password == Some(password) &&
                                      r.user.value == AuthOf(us[i]) &&
                                      forall j :: 0 <= j < i ==> !(us[j].email == email && us[j].password == Some(password))
    ensures !r.success ==> r == Rejected(InvalidCredentials)
  {
    match FindFirst(us, (u: Usuario) => u.email == email && u.password == Some(password))
    case Some(u) => Accepted(AuthOf(u))
    case None => Rejected(InvalidCredentials)
  }

  ghost predicate EmailInUse(us: seq<Usuario>, email: string)
  {
    exists i :: 0 <= i < |us| && us[i].email == email
  }

  ghost predicate DocumentoInUse(us: seq<Usuario>, documento: string)
  {
    exists i :: 0 <= i < |us| && us[i].documento == documento
  }

  /** What `register` answers: the email is checked first, then the document;
      a new user always gets the role "usuario". */
  ghost function RegisterResponse(us: seq<Usuario>, nombre: string, email: string, documento: string): (r: AuthResponse)
    requires |us| > 0
    ensures r.success <==> !EmailInUse(us, email) && !DocumentoInUse(us, documento)
    ensures EmailInUse(us, email) ==> r == Rejected(EmailTaken)
    ensures !EmailInUse(us, email) && DocumentoInUse(us, documento) ==> r == Rejected(DocumentoTaken)
    ensures r.success ==>
              r.message.None? && r.user.Some? &&
              r.user.value.nombre == nombre && r.user.value.email == email && r.user.value.role == RoleUsuario &&
              (forall i :: 0 <= i < |us| ==> us[i].id < r.user.value.id) &&
              (exists i :: 0 <= i < |us| && us[i].id == r.user.value.id - 1)
  {
    if EmailInUse(us, email) then Rejected(EmailTaken)
    else if DocumentoInUse(us, documento) then Rejected(DocumentoTaken)
    else Accepted(AuthUser(NextKey(us, UsuarioId), nombre, email, RoleUsuario))
  }

  /** The user table after `register`. */
  ghost function AfterRegister(us: seq<Usuario>, nombre: string, email: string, documento: string, password: string): (r: seq<Usuario>)
    requires |us| > 0
    ensures EmailInUse(us, email) || DocumentoInUse(us, documento) ==> r == us
    ensures !EmailInUse(us, email) && !DocumentoInUse(us, documento) ==>
              |r| == |us| + 1 && r[..|us|] == us &&
              r[|us|].nombre == nombre && r[|us|].email == email && r[|us|].documento == documento &&
              r[|us|].password == Some(password) &&
              forall i :: 0 <= i < |us| ==> us[i].id < r[|us|].id
  {
    if EmailInUse(us, email) || DocumentoInUse(us, documento) then us
    else us + [Usuario(NextKey(us, UsuarioId), nombre, email, documento, Some(password))]
  }

  /** A refused registration leaves the user table as it was; the email
      check wins when both the email and the document are taken. */
  lemma RegisterRejections(us: seq<Usuario>, nombre: string, email: string, documento: string, password: string)
    requires |us| > 0
    ensures !RegisterResponse(us, nombre, email, documento).success ==>
              AfterRegister(us, nombre, email, documento, password) == us &&
              RegisterResponse(us, nombre, email, documento).user.None?
    ensures EmailInUse(us, email) ==> RegisterResponse(us, nombre, email, documento) == Rejected(EmailTaken)
    ensures !EmailInUse(us, email) && DocumentoInUse(us, documento) ==>
              RegisterResponse(us, nombre, email, documento) == Rejected(DocumentoTaken)
    ensures !EmailInUse(us, email) && !DocumentoInUse(us, documento) ==>
              RegisterResponse(us, nombre, email, documento).success &&
              |AfterRegister(us, nombre, email, documento, password)| == |us| + 1
  {
  }

  /** An accepted registration appends exactly one user, whose id is one more
      than the previous largest id, and answers with that user as a plain
      "usuario". */
  lemma RegisterAppendsOne(us: seq<Usuario>, nombre: string, email: string, documento: string, password: string)
    requires |us| > 0
    requires RegisterResponse(us, nombre, email, documento).success
    ensures var after := AfterRegister(us, nombre, email, documento, password);
            var r := RegisterResponse(us, nombre, email, documento);
            |after| == |us| + 1 && after[..|us|] == us &&
            after[|us|] == Usuario(r.user.value.id, nombre, email, documento, Some(password)) &&
            (forall i :: 0 <= i < |us| ==> us[i].id < r.user.value.id) &&
            (exists i :: 0 <= i < |us| && us[i].id == r.user.value.id - 1) &&
            r.user.value.role == RoleUsuario
  {
    var after := AfterRegister(us, nombre, email, documento, password);
    assert after[..|us|] == us;
  }

  /** Registration keeps ids, emails and document numbers pairwise distinct. */
  lemma RegisterKeepsUnique(us: seq<Usuario>, nombre: string, email: string, documento: string, password: string)
    requires |us| > 0
    requires UniqueKeys(us, UsuarioId) && UniqueKeys(us, UsuarioEmail) && UniqueKeys(us, UsuarioDocumento)
    ensures var after := AfterRegister(us, nombre, email, documento, password);
            UniqueKeys(after, UsuarioId) && UniqueKeys(after, UsuarioEmail) && UniqueKeys(after, UsuarioDocumento)
  {
    var after := AfterRegister(us, nombre, email, documento, password);
    if after != us {
      var n := |us|;
      assert after[n].email == email && after[n].documento == documento;
      forall i, j | 0 <= i < j < |after|
        ensures after[i].id != after[j].id
        ensures after[i].email != after[j].email
        ensures after[i].documento != after[j].documento
      {
        if j == n {
          assert after[i] == us[i];
        } else {
          assert after[i] == us[i] && after[j] == us[j];
        }
      }
    }
  }

  /** Logging in right after an accepted registration with the same email
      and password succeeds as the new user; the role is then decided by the
      email, so it is "admin" exactly when the email is the administrator's,
      although register itself answered "usuario". */
  lemma {:induction false} RegisterThenLogin(us: seq<Usuario>, nombre: string, email: string, documento: string, password: string)
    requires |us| > 0
    requires RegisterResponse(us, nombre, email, documento).success
    ensures var r := LoginResponse(AfterRegister(us, nombre, email, documento, password), email, password);
            r.success && r.user.value.id == RegisterResponse(us, nombre, email, documento).user.value.id &&
            (r.user.value.role == RoleAdmin <==> email == AdminEmail)
  {
    var after := AfterRegister(us, nombre, email, documento, password);
    var n := |us|;
    assert after[n].email == email && after[n].password == Some(password);
    var r := LoginResponse(after, email, password);
    var i :| 0 <= i < |after| && after[i].email == email && after[i].password == Some(password) &&
             r.user.value == AuthOf(after[i]);
  }

  // ------------------------------------------------------------------ reads

  /** `getUsuarios()`: every user, in order, with the password removed and
      everything else kept. */
  function UsuariosView(us: seq<Usuario>): (r: seq<Usuario>)
    ensures |r| == |us|
    ensures forall i :: 0 <= i < |r| ==> r[i].password.None? && r[i].(password := us[i].password) == us[i]
  {
    seq(|us|, i requires 0 <= i < |us| => StripPassword(us[i]))
  }

  /** A stored appointment with the professional's name and specialty looked
      up by id; absent when no professional has that id. */
  function EnrichProfesional(c: Cita, ps: seq<Profesional>): (v: CitaView)
    ensures v.cita == c && v.usuarioNombre.None?
    ensures v.profesionalNombre.Some? <==> exists j :: 0 <= j < |ps| && ps[j].id == c.profesionalId
    ensures v.profesionalEspecialidad.Some? <==> v.profesionalNombre.Some?
    ensures v.profesionalNombre.Some? ==>
              exists j :: 0 <= j < |ps| && ps[j].id == c.profesionalId &&
                          v.profesionalNombre.value == ps[j].nombre && v.profesionalEspecialidad.value == ps[j].especialidad
  {
    match FindByKey(ps, ProfesionalId, c.profesionalId)
    case Some(p) => CitaView(c, Some(p.nombre), Some(p.especialidad), None)
    case None => CitaView(c, None, None, None)
  }

  /** As `EnrichProfesional`, plus the patient's name looked up by id. */
  function Enrich(c: Cita, ps: seq<Profesional>, us: seq<Usuario>): (v: CitaView)
    ensures v.(usuarioNombre := None) == EnrichProfesional(c, ps)
    ensures v.usuarioNombre.Some? <==> exists j :: 0 <= j < |us| && us[j].id == c.usuarioId
    ensures v.usuarioNombre.Some? ==>
              exists j :: 0 <= j < |us| && us[j].id == c.usuarioId && v.usuarioNombre.value == us[j].nombre
  {
    match FindByKey(us, UsuarioId, c.usuarioId)
    case Some(u) => EnrichProfesional(c, ps).(usuarioNombre := Some(u.nombre))
    case None => EnrichProfesional(c, ps)
  }

  /** `getCitas()`: one enriched record per stored appointment, in order. */
  function CitasView(cs: seq<Cita>, ps: seq<Profesional>, us: seq<Usuario>): (r: seq<CitaView>)
    ensures |r| == |cs|
    ensures forall i :: 0 <= i < |r| ==> r[i].cita == cs[i]
    ensures forall i :: 0 <= i < |r| ==> r[i] == Enrich(cs[i], ps, us)
  {
    seq(|cs|, i requires 0 <= i < |cs| => Enrich(cs[i], ps, us))
  }

  /** The stored appointments of one patient, in order. */
  function OwnedBy(cs: seq<Cita>, usuarioId: int): (r: seq<Cita>)
    ensures forall i :: 0 <= i < |r| ==> r[i] in cs && r[i].usuarioId == usuarioId
    ensures forall i :: 0 <= i < |cs| && cs[i].usuarioId == usuarioId ==> cs[i] in r
  {
    Filter(cs, (c: Cita) => c.usuarioId == usuarioId)
  }

  /** `getCitasByUsuario(id)`: only that patient's appointments, in order,
      with the professional attached and no patient name. */
  function CitasViewOf(cs: seq<Cita>, ps: seq<Profesional>, usuarioId: int): (r: seq<CitaView>)
    ensures |r| == |OwnedBy(cs, usuarioId)|
    ensures forall i :: 0 <= i < |r| ==> r[i] == EnrichProfesional(OwnedBy(cs, usuarioId)[i], ps)
    ensures forall i :: 0 <= i < |r| ==> r[i].cita.usuarioId == usuarioId && r[i].usuarioNombre.None? && r[i].cita in cs
  {
    var own := OwnedBy(cs, usuarioId);
    seq(|own|, i requires 0 <= i < |own| => EnrichProfesional(own[i], ps))
  }

  // ---------------------------------------------------------------- updates

  /** `us[index] = { ...us[index], ...patch }` at the first user with the id. */
  function UpdatedUsuarios(us: seq<Usuario>, id: int, patch: UsuarioPatch): (r: seq<Usuario>)
    ensures match IndexOfKey(us, UsuarioId, id)
            case None => r == us
            case Some(k) => |r| == |us| && r[k] == MergeUsuario(us[k], patch) &&
                            forall j :: 0 <= j < |us| && j != k ==> r[j] == us[j]
  {
    UpdateFirst(us, UsuarioId, id, (u: Usuario) => MergeUsuario(u, patch))
  }

  function UpdatedProfesionales(ps: seq<Profesional>, id: int, patch: ProfesionalPatch): (r: seq<Profesional>)
    ensures match IndexOfKey(ps, ProfesionalId, id)
            case None => r == ps
            case Some(k) => |r| == |ps| && r[k] == MergeProfesional(ps[k], patch) &&
                            forall j :: 0 <= j < |ps| && j != k ==> r[j] == ps[j]
  {
    UpdateFirst(ps, ProfesionalId, id, (p: Profesional) => MergeProfesional(p, patch))
  }

  function UpdatedCitas(cs: seq<Cita>, id: int, patch: CitaPatch): (r: seq<Cita>)
    ensures match IndexOfKey(cs, CitaId, id)
            case None => r == cs
            case Some(k) => |r| == |cs| && r[k] == MergeCita(cs[k], patch) &&
                            forall j :: 0 <= j < |cs| && j != k ==> r[j] == cs[j]
  {
    UpdateFirst(cs, CitaId, id, (c: Cita) => MergeCita(c, patch))
  }

  /** An update whose patch carries no id keeps the appointment ids unique,
      and sets any status on an existing appointment, whatever its old status. */
  lemma UpdateCitaFacts(cs: seq<Cita>, id: int, patch: CitaPatch)
    requires patch.id.None?
    ensures UniqueKeys(cs, CitaId) ==> UniqueKeys(UpdatedCitas(cs, id, patch), CitaId)
    ensures forall k :: 0 <= k < |cs| && cs[k].id == id && patch.estado.Some? ==>
              exists j :: 0 <= j < |cs| && UpdatedCitas(cs, id, patch)[j].id == id &&
                          UpdatedCitas(cs, id, patch)[j].estado == patch.estado.value
  {
    var r := UpdatedCitas(cs, id, patch);
    if UniqueKeys(cs, CitaId) {
      UpdateFirstKeepsUnique(cs, CitaId, id, (c: Cita) => MergeCita(c, patch));
    }
    forall k | 0 <= k < |cs| && cs[k].id == id && patch.estado.Some?
      ensures exists j :: 0 <= j < |cs| && r[j].id == id && r[j].estado == patch.estado.value
    {
      assert CitaId(cs[k]) == id;
      var j :| 0 <= j <= k && r[j] == MergeCita(cs[j], patch) && CitaId(cs[j]) == id;
      assert r[j].id == id && r[j].estado == patch.estado.value;
    }
  }

  /** Registering a second time with an email that was just registered is
      refused as a taken email and adds no second record. */
  lemma RegisterTwice(us: seq<Usuario>, nombre: string, email: string, documento: string, password: string,
                      nombre2: string, documento2: string, password2: string)
    requires |us| > 0
    requires RegisterResponse(us, nombre, email, documento).success
    ensures var after := AfterRegister(us, nombre, email, documento, password);
            RegisterResponse(after, nombre2, email, documento2) == Rejected(EmailTaken) &&
            AfterRegister(after, nombre2, email, documento2, password2) == after
  {
    var after := AfterRegister(us, nombre, email, documento, password);
    assert after[|us|].email == email;
  }

  /** Creating a user and then deleting the id it was given leaves the user
      table as it was, and `getUsuarios()` no longer lists that id. */
  lemma CreateThenDeleteUsuario(us: seq<Usuario>, input: UsuarioInput)
    requires |us| > 0
    ensures var id := NextKey(us, UsuarioId);
            var after := RemoveKey(us + [input.WithId(id)], UsuarioId, id);
            after == us && forall i :: 0 <= i < |UsuariosView(after)| ==> UsuariosView(after)[i].id != id
  {
    var id := NextKey(us, UsuarioId);
    AppendThenRemove(us, input.WithId(id), UsuarioId);
    var v := UsuariosView(us);
    forall i | 0 <= i < |v| ensures v[i].id != id {
      assert v[i].id == us[i].id;
    }
  }

  /** A status-only update of a stored appointment sets that status in its
      slot and keeps the date, time, professional and patient. */
  lemma StatusUpdate(cs: seq<Cita>, id: int, e: EstadoCita)
    requires IndexOfKey(cs, CitaId, id).Some?
    ensures var k := IndexOfKey(cs, CitaId, id).value;
            var r := UpdatedCitas(cs, id, EmptyCitaPatch.(estado := Some(e)));
            |r| == |cs| && r[k] == cs[k].(estado := e) &&
            forall j :: 0 <= j < |cs| && j != k ==> r[j] == cs[j]
  {
  }

  /** The seed tables have unique ids, emails and document numbers, and the
      next ids are 4. */
  lemma SeedUnique()
    ensures UniqueKeys(SeedUsuarios, UsuarioId) && UniqueKeys(SeedUsuarios, UsuarioEmail)
    ensures UniqueKeys(SeedUsuarios, UsuarioDocumento)
    ensures UniqueKeys(SeedProfesionales, ProfesionalId) && UniqueKeys(SeedCitas, CitaId)
    ensures NextKey(SeedUsuarios, UsuarioId) == 4 && NextKeyFromZero(SeedCitas, CitaId) == 4
  {
  }

  /** The seeded administrator logs in as "admin", a seeded patient as
      "usuario", and a patient with the administrator's password is refused. */
  lemma SeedLogins()
    ensures LoginResponse(SeedUsuarios, "admin@hospital.com", "admin123").user == Some(AuthUser(1, "Admin Sistema", "admin@hospital.com", RoleAdmin))
    ensures LoginResponse(SeedUsuarios, "juan@email.com", "user123").user == Some(AuthUser(2, "Juan Pérez", "juan@email.com", RoleUsuario))
    ensures !LoginResponse(SeedUsuarios, "juan@email.com", "admin123").success
  {
    assert SeedUsuarios[0].email == "admin@hospital.com" && SeedUsuarios[0].password == Some("admin123");
    assert SeedUsuarios[1].email == "juan@email.com" && SeedUsuarios[1].password == Some("user123");
    assert SeedUsuarios[0].email != "juan@email.com";
  }

  // ------------------------------------------------------------------ store

  /** The three module-level arrays of the mock API. No invariant is kept
      between calls: the mock API lets an update change a record's id. */
  class Store {
    var usuarios: seq<Usuario>
    var profesionales: seq<Profesional>
    var citas: seq<Cita>

    constructor ()
      ensures usuarios == SeedUsuarios && profesionales == SeedProfesionales && citas == SeedCitas
    {
      usuarios := SeedUsuarios;
      profesionales := SeedProfesionales;
      citas := SeedCitas;
    }

    method Login(email: string, password: string) returns (r: AuthResponse)
      ensures r == LoginResponse(usuarios, email, password)
    {
      var found := FindFirst(usuarios, (u: Usuario) => u.email == email && u.password == Some(password));
      if found.Some? {
        var u := found.value;
        var role := if u.email == AdminEmail then RoleAdmin else RoleUsuario;
        return Accepted(AuthUser(u.id, u.nombre, u.email, role));
      }
      return Rejected(InvalidCredentials);
    }

    method Register(nombre: string, email: string, documento: string, password: string) returns (r: AuthResponse)
      requires |usuarios| > 0
      modifies this
      ensures r == RegisterResponse(old(usuarios), nombre, email, documento)
      ensures usuarios == AfterRegister(old(usuarios), nombre, email, documento, password)
      ensures profesionales == old(profesionales) && citas == old(citas)
    {
      if FindFirst(usuarios, (u: Usuario) => u.email == email).Some? {
        return Rejected(EmailTaken);
      }
      if FindFirst(usuarios, (u: Usuario) => u.documento == documento).Some? {
        return Rejected(DocumentoTaken);
      }
      var newId := NextKey(usuarios, UsuarioId);
      var nuevo := Usuario(newId, nombre, email, documento, Some(password));
      usuarios := usuarios + [nuevo];
      r := Accepted(AuthUser(nuevo.id, nuevo.nombre, nuevo.email, RoleUsuario));
    }

    method GetUsuarios() returns (r: seq<Usuario>)
      ensures r == UsuariosView(usuarios)
    {
      r := UsuariosView(usuarios);
    }

    method CreateUsuario(input: UsuarioInput) returns (r: Usuario)
      requires |usuarios| > 0
      modifies this
      ensures usuarios == old(usuarios) + [input.WithId(NextKey(old(usuarios), UsuarioId))]
      ensures r == StripPassword(input.WithId(NextKey(old(usuarios), UsuarioId)))
      ensures profesionales == old(profesionales) && citas == old(citas)
    {
      var newId := NextKey(usuarios, UsuarioId);
      var nuevo := input.WithId(newId);
      usuarios := usuarios + [nuevo];
      r := StripPassword(nuevo);
    }

    method UpdateUsuario(id: int, patch: UsuarioPatch) returns (r: Result<Usuario>)
      modifies this
      ensures usuarios == UpdatedUsuarios(old(usuarios), id, patch)
      ensures match IndexOfKey(old(usuarios), UsuarioId, id)
              case None => r == Failure(UsuarioNotFound)
              case Some(k) => r == Success(StripPassword(MergeUsuario(old(usuarios)[k], patch)))
      ensures profesionales == old(profesionales) && citas == old(citas)
    {
      var index := IndexOfKey(usuarios, UsuarioId, id);
      if index.Some? {
        var k := index.value;
        usuarios := usuarios[k := MergeUsuario(usuarios[k], patch)];
        return Success(StripPassword(usuarios[k]));
      }
      return Failure(UsuarioNotFound);
    }

    method DeleteUsuario(id: int)
      modifies this
      ensures usuarios == RemoveKey(old(usuarios), UsuarioId, id)
      ensures profesionales == old(profesionales) && citas == old(citas)
    {
      usuarios := RemoveKey(usuarios, UsuarioId, id);
    }

    method GetProfesionales() returns (r: seq<Profesional>)
      ensures r == profesionales
    {
      r := profesionales;
    }

    method CreateProfesional(input: ProfesionalInput) returns (r: Profesional)
      requires |profesionales| > 0
      modifies this
      ensures r == input.WithId(NextKey(old(profesionales), ProfesionalId))
      ensures profesionales == old(profesionales) + [r]
      ensures usuarios == old(usuarios) && citas == old(citas)
    {
      var newId := NextKey(profesionales, ProfesionalId);
      r := input.WithId(newId);
      profesionales := profesionales + [r];
    }

    method UpdateProfesional(id: int, patch: ProfesionalPatch) returns (r: Result<Profesional>)
      modifies this
      ensures profesionales == UpdatedProfesionales(old(profesionales), id, patch)
      ensures match IndexOfKey(old(profesionales), ProfesionalId, id)
              case None => r == Failure(ProfesionalNotFound)
              case Some(k) => r == Success(MergeProfesional(old(profesionales)[k], patch))
      ensures usuarios == old(usuarios) && citas == old(citas)
    {
      var index := IndexOfKey(profesionales, ProfesionalId, id);
      if index.Some? {
        var k := index.value;
        profesionales := profesionales[k := MergeProfesional(profesionales[k], patch)];
        return Success(profesionales[k]);
      }
      return Failure(ProfesionalNotFound);
    }

    method DeleteProfesional(id: int)
      modifies this
      ensures profesionales == RemoveKey(old(profesionales), ProfesionalId, id)
      ensures usuarios == old(usuarios) && citas == old(citas)
    {
      profesionales := RemoveKey(profesionales, ProfesionalId, id);
    }

    method GetCitas() returns (r: seq<CitaView>)
      ensures r == CitasView(citas, profesionales, usuarios)
    {
      r := CitasView(citas, profesionales, usuarios);
    }

    method GetCitasByUsuario(usuarioId: int) returns (r: seq<CitaView>)
      ensures r == CitasViewOf(citas, profesionales, usuarioId)
    {
      r := CitasViewOf(citas, profesionales, usuarioId);
    }

    method CreateCita(input: CitaInput) returns (r: CitaView)
      modifies this
      ensures citas == old(citas) + [input.WithId(NextKeyFromZero(old(citas), CitaId))]
      ensures r == Enrich(input.WithId(NextKeyFromZero(old(citas), CitaId)), profesionales, usuarios)
      ensures usuarios == old(usuarios) && profesionales == old(profesionales)
    {
      var newId := NextKeyFromZero(citas, CitaId);
      var nueva := input.WithId(newId);
      citas := citas + [nueva];
      r := Enrich(nueva, profesionales, usuarios);
    }

    method UpdateCita(id: int, patch: CitaPatch) returns (r: Result<CitaView>)
      modifies this
      ensures citas == UpdatedCitas(old(citas), id, patch)
      ensures match IndexOfKey(old(citas), CitaId, id)
              case None => r == Failure(CitaNotFound)
              case Some(k) => r == Success(Enrich(MergeCita(old(citas)[k], patch), profesionales, usuarios))
      ensures usuarios == old(usuarios) && profesionales == old(profesionales)
    {
      var index := IndexOfKey(citas, CitaId, id);
      if index.Some? {
        var k := index.value;
        citas := citas[k := MergeCita(citas[k], patch)];
        return Success(Enrich(citas[k], profesionales, usuarios));
      }
      return Failure(CitaNotFound);
    }

    method DeleteCita(id: int)
      modifies this
      ensures citas == RemoveKey(old(citas), CitaId, id)
      ensures usuarios == old(usuarios) && profesionales == old(profesionales)
    {
      citas := RemoveKey(citas, CitaId, id);
    }
  }
}
