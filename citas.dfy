/** The appointment screen: what an actor loads, the defaults and options of
    the appointment form, the ownership forced on submit, the status filter,
    and the screen state its handlers update. */
module Citas {
  import opened Types
  import opened Table
  import opened Api

  /** The filter value that shows every appointment. */
  const Todos := "todos"

  /** The appointment form. The two pickers hold the chosen id, or None while
      nothing is chosen (the empty string in the form). */
  datatype Form = Form(fecha: string, hora: string, estado: EstadoCita, profesionalId: Option<int>, usuarioId: Option<int>)

  /** The form before any dialog is opened. */
  const InitialForm := Form("", "", Pendiente, None, None)

  /** What submitting the form asks of the store. */
  datatype Request = CreateRequest(input: CitaInput) | UpdateRequest(id: int, patch: CitaPatch)

  // ------------------------------------------------------------ role rules

  /** Appointments loaded for the actor: all of them, enriched with the
      patient's name, for an admin; only the actor's own for anyone else. */
  function LoadedCitas(user: AuthUser, cs: seq<Cita>, ps: seq<Profesional>, us: seq<Usuario>): (r: seq<CitaView>)
    ensures user.role == RoleAdmin ==> |r| == |cs| && forall i :: 0 <= i < |r| ==> r[i].cita == cs[i]
    ensures user.role == RoleUsuario ==>
              forall i :: 0 <= i < |r| ==> r[i].cita in cs && r[i].cita.usuarioId == user.id && r[i].usuarioNombre.None?
    ensures user.role == RoleUsuario ==>
              forall i :: 0 <= i < |cs| && cs[i].usuarioId == user.id ==> exists j :: 0 <= j < |r| && r[j].cita == cs[i]
  {
    if user.role == RoleAdmin then CitasView(cs, ps, us)
    else
      var r := CitasViewOf(cs, ps, user.id);
      assert forall j :: 0 <= j < |r| ==> r[j].cita == OwnedBy(cs, user.id)[j];
      r
  }

  /** Patients loaded for the picker: every user (without passwords) for an
      admin, none for anyone else. */
  function LoadedUsuarios(user: AuthUser, us: seq<Usuario>): (r: seq<Usuario>)
    ensures user.role == RoleAdmin ==> |r| == |us| && forall i :: 0 <= i < |r| ==> r[i].id == us[i].id
    ensures user.role == RoleAdmin ==> r == UsuariosView(us)
    ensures user.role == RoleUsuario ==> r == []
    ensures forall i :: 0 <= i < |r| ==> r[i].password.None?
  {
    if user.role == RoleAdmin then UsuariosView(us) else []
  }

  /** The picker's test: the status string is "activo". */
  predicate IsActivo(p: Profesional): (b: bool)
    ensures b <==> p.estado == Activo
  {
    EstadoProfesionalClosed();
    EstadoProfesionalValue(p.estado) == "activo"
  }

  /** The professional picker: the active professionals, in order. */
  function ActiveProfesionales(ps: seq<Profesional>): (r: seq<Profesional>)
    ensures forall i :: 0 <= i < |r| ==> r[i] in ps && r[i].estado == Activo
    ensures forall i :: 0 <= i < |ps| && ps[i].estado == Activo ==> ps[i] in r
  {
    Filter(ps, IsActivo)
  }

  /** The statuses the form offers: all four to an admin, only "confirmada"
      and "cancelada" to anyone else. */
  function EstadoOptions(role: Role): (r: seq<EstadoCita>)
    ensures forall e :: e in r <==> role == RoleAdmin || e == Confirmada || e == Cancelada
    ensures role == RoleAdmin ==> r == AllEstadosCita
  {
    EstadoCitaClosed();
    if role == RoleAdmin then AllEstadosCita else [Confirmada, Cancelada]
  }

  /** The form of a new appointment: a patient starts "confirmada" and booked
      for themself, an admin starts "pendiente" with no patient chosen. */
  function DefaultForm(user: AuthUser): (f: Form)
    ensures user.role == RoleUsuario ==> f.estado == Confirmada && f.usuarioId == Some(user.id)
    ensures user.role == RoleAdmin ==> f.estado == Pendiente && f.usuarioId.None?
    ensures f.fecha == "" && f.hora == "" && f.profesionalId.None?
  {
    var defaultUsuarioId := if user.role == RoleUsuario then Some(user.id) else None;
    var defaultEstado := if user.role == RoleUsuario then Confirmada else Pendiente;
    Form("", "", defaultEstado, None, defaultUsuarioId)
  }

  /** The default status is one the form offers to that actor. */
  lemma DefaultEstadoOffered(user: AuthUser)
    ensures DefaultForm(user).estado in EstadoOptions(user.role)
  {
  }

  /** The form for editing an appointment, filled from that appointment. */
  function EditForm(v: CitaView): (f: Form)
    ensures f.fecha == v.cita.fecha && f.hora == v.cita.hora && f.estado == v.cita.estado
    ensures f.profesionalId == Some(v.cita.profesionalId) && f.usuarioId == Some(v.cita.usuarioId)
  {
    Form(v.cita.fecha, v.cita.hora, v.cita.estado, Some(v.cita.profesionalId), Some(v.cita.usuarioId))
  }

  /** The five fields sent on submit. A patient's appointment always belongs
      to the patient, whatever the form holds. */
  function Payload(user: AuthUser, f: Form): (p: CitaInput)
    requires f.profesionalId.Some?
    requires user.role == RoleAdmin ==> f.usuarioId.Some?
    ensures user.role == RoleUsuario ==> p.usuarioId == user.id
    ensures user.role == RoleAdmin ==> p.usuarioId == f.usuarioId.value
    ensures p.fecha == f.fecha && p.hora == f.hora && p.estado == f.estado && p.profesionalId == f.profesionalId.value
  {
    var usuarioIdFinal := if user.role == RoleUsuario then user.id else f.usuarioId.value;
    CitaInput(f.fecha, f.hora, f.estado, f.profesionalId.value, usuarioIdFinal)
  }

  /** The payload as an update patch: it overwrites exactly the five fields
      and keeps the appointment's id. */
  function AsPatch(p: CitaInput): (q: CitaPatch)
    ensures q.id.None?
    ensures forall c: Cita :: MergeCita(c, q) == p.WithId(c.id)
  {
    CitaPatch(None, Some(p.fecha), Some(p.hora), Some(p.estado), Some(p.profesionalId), Some(p.usuarioId))
  }

  /** Submitting updates the appointment being edited, or creates one. */
  function SubmitRequest(user: AuthUser, f: Form, editing: Option<CitaView>): (r: Request)
    requires f.profesionalId.Some?
    requires user.role == RoleAdmin ==> f.usuarioId.Some?
    ensures r.UpdateRequest? <==> editing.Some?
    ensures editing.Some? ==> r.id == editing.value.cita.id && r.patch == AsPatch(Payload(user, f))
    ensures editing.None? ==> r.input == Payload(user, f)
  {
    var citaData := Payload(user, f);
    if editing.Some? then UpdateRequest(editing.value.cita.id, AsPatch(citaData))
    else CreateRequest(citaData)
  }

  /** Whatever a patient submits, the stored appointment it creates or
      rewrites belongs to that patient. */
  lemma {:induction false} PatientOwnsSubmission(user: AuthUser, f: Form, editing: Option<CitaView>, c: Cita)
    requires user.role == RoleUsuario && f.profesionalId.Some?
    ensures var r := SubmitRequest(user, f, editing);
            match r
            case CreateRequest(input) => input.usuarioId == user.id
            case UpdateRequest(_, patch) => MergeCita(c, patch).usuarioId == user.id
  {
    var p := Payload(user, f);
    assert p.usuarioId == user.id;
    if editing.Some? {
      assert MergeCita(c, AsPatch(p)) == p.WithId(c.id);
    }
  }

  /** Opening an appointment for editing and submitting the form unchanged
      writes back exactly the stored record (for an admin, or for the
      appointment's own patient). */
  lemma EditRoundTrip(user: AuthUser, v: CitaView)
    requires user.role == RoleAdmin || v.cita.usuarioId == user.id
    ensures var r := SubmitRequest(user, EditForm(v), Some(v));
            r.UpdateRequest? && r.id == v.cita.id && MergeCita(v.cita, r.patch) == v.cita
  {
    var p := Payload(user, EditForm(v));
    assert MergeCita(v.cita, AsPatch(p)) == p.WithId(v.cita.id);
  }

  /** The match test of the status filter. */
  function EstadoIs(filtro: string): (t: CitaView -> bool)
    ensures forall v :: t(v) <==> EstadoCitaValue(v.cita.estado) == filtro
    ensures filtro == Todos ==> forall v :: !t(v)
  {
    EstadoCitaClosed();
    (v: CitaView) => EstadoCitaValue(v.cita.estado) == filtro
  }

  /** `citasFiltradas`: the whole list for "todos", otherwise the appointments
      whose status string equals the filter, in order. */
  function CitasFiltradas(cs: seq<CitaView>, filtro: string): (r: seq<CitaView>)
    ensures filtro == Todos ==> r == cs
    ensures filtro != Todos ==> forall i :: 0 <= i < |r| ==> r[i] in cs && EstadoCitaValue(r[i].cita.estado) == filtro
    ensures filtro != Todos ==> forall i :: 0 <= i < |cs| && EstadoCitaValue(cs[i].cita.estado) == filtro ==> cs[i] in r
  {
    if filtro == Todos then cs else Filter(cs, EstadoIs(filtro))
  }

  /** Filtering by a status keeps exactly the appointments in that status;
      applying the same filter again changes nothing; a filter value that is
      no status string leaves nothing. */
  lemma CitasFiltradasFacts(cs: seq<CitaView>, e: EstadoCita, filtro: string)
    ensures var r := CitasFiltradas(cs, EstadoCitaValue(e));
            (forall i :: 0 <= i < |r| ==> r[i].cita.estado == e) &&
            (forall i :: 0 <= i < |cs| && cs[i].cita.estado == e ==> cs[i] in r)
    ensures CitasFiltradas(CitasFiltradas(cs, filtro), filtro) == CitasFiltradas(cs, filtro)
    ensures filtro != Todos && (forall x: EstadoCita :: EstadoCitaValue(x) != filtro) ==> CitasFiltradas(cs, filtro) == []
  {
    EstadoCitaClosed();
    if filtro != Todos {
      FilterIdempotent(cs, EstadoIs(filtro));
    }
  }

  // ------------------------------------------------------------ the screen

  /** The appointment screen of one authenticated actor over one store. */
  class CitasManager {
    const user: AuthUser
    const api: Store
    var citas: seq<CitaView>
    var profesionales: seq<Profesional>
    var usuarios: seq<Usuario>
    var isLoading: bool
    var isDialogOpen: bool
    var editingCita: Option<CitaView>
    var filtroEstado: string
    var formData: Form

    constructor (user: AuthUser, api: Store)
      ensures this.user == user && this.api == api
      ensures citas == [] && profesionales == [] && usuarios == []
      ensures isLoading && !isDialogOpen && editingCita.None?
      ensures filtroEstado == Todos && formData == InitialForm
    {
      this.user := user;
      this.api := api;
      citas, profesionales, usuarios := [], [], [];
      isLoading, isDialogOpen, editingCita := true, false, None;
      filtroEstado, formData := Todos, InitialForm;
    }

    /** `loadData`: reload the three lists for the actor. */
    method LoadData()
      modifies this
      ensures citas == LoadedCitas(user, api.citas, api.profesionales, api.usuarios)
      ensures profesionales == ActiveProfesionales(api.profesionales)
      ensures usuarios == LoadedUsuarios(user, api.usuarios)
      ensures !isLoading
      ensures isDialogOpen == old(isDialogOpen) && editingCita == old(editingCita)
      ensures filtroEstado == old(filtroEstado) && formData == old(formData)
    {
      isLoading := true;
      var citasData: seq<CitaView>;
      if user.role == RoleAdmin {
        citasData := api.GetCitas();
      } else {
        citasData := api.GetCitasByUsuario(user.id);
      }
      assert citasData == LoadedCitas(user, api.citas, api.profesionales, api.usuarios);
      var profesionalesData := api.GetProfesionales();
      var usuariosData: seq<Usuario> := [];
      if user.role == RoleAdmin {
        usuariosData := api.GetUsuarios();
      }
      assert usuariosData == LoadedUsuarios(user, api.usuarios);
      citas := citasData;
      profesionales := ActiveProfesionales(profesionalesData);
      usuarios := usuariosData;
      isLoading := false;
    }

    /** `handleOpenDialog`: edit the given appointment, or start a new one. */
    method OpenDialog(cita: Option<CitaView>)
      modifies this
      ensures editingCita == cita && isDialogOpen
      ensures formData == if cita.Some? then EditForm(cita.value) else DefaultForm(user)
      ensures citas == old(citas) && profesionales == old(profesionales) && usuarios == old(usuarios)
      ensures isLoading == old(isLoading) && filtroEstado == old(filtroEstado)
    {
      if cita.Some? {
        editingCita := cita;
        formData := EditForm(cita.value);
      } else {
        editingCita := None;
        formData := DefaultForm(user);
      }
      isDialogOpen := true;
    }

    /** Typing the date. */
    method SetFecha(fecha: string)
      modifies this`formData
      ensures formData == old(formData).(fecha := fecha)
    {
      formData := formData.(fecha := fecha);
    }

    /** Typing the time. */
    method SetHora(hora: string)
      modifies this`formData
      ensures formData == old(formData).(hora := hora)
    {
      formData := formData.(hora := hora);
    }

    /** Choosing a professional in the picker, which lists the loaded active
        professionals. */
    method SelectProfesional(id: int)
      requires exists i :: 0 <= i < |profesionales| && profesionales[i].id == id
      modifies this`formData
      ensures formData == old(formData).(profesionalId := Some(id))
    {
      formData := formData.(profesionalId := Some(id));
    }

    /** Choosing a patient: the picker is shown to an admin only and lists the
        loaded users. */
    method SelectUsuario(id: int)
      requires user.role == RoleAdmin
      requires exists i :: 0 <= i < |usuarios| && usuarios[i].id == id
      modifies this`formData
      ensures formData == old(formData).(usuarioId := Some(id))
    {
      formData := formData.(usuarioId := Some(id));
    }

    /** Choosing a status among those the form offers to the actor. */
    method SelectEstado(e: EstadoCita)
      requires e in EstadoOptions(user.role)
      modifies this`formData
      ensures formData == old(formData).(estado := e)
      ensures user.role == RoleUsuario ==> formData.estado == Confirmada || formData.estado == Cancelada
    {
      formData := formData.(estado := e);
    }

    /** Closing the dialog without saving: the form is kept as it is. */
    method CloseDialog()
      modifies this`isDialogOpen
      ensures !isDialogOpen
    {
      isDialogOpen := false;
    }

    /** `handleSubmit`: send the form to the store; on success close the
      dialog and reload, on a missing appointment leave the screen as it is. */
    method HandleSubmit() returns (saved: bool)
      requires formData.profesionalId.Some?
      requires user.role == RoleAdmin ==> formData.usuarioId.Some?
      modifies this, api
      ensures var req := SubmitRequest(user, old(formData), old(editingCita));
              match req
              case CreateRequest(input) =>
                saved && api.citas == old(api.citas) + [input.WithId(NextKeyFromZero(old(api.citas), CitaId))]
              case UpdateRequest(id, patch) =>
                saved == IndexOfKey(old(api.citas), CitaId, id).Some? &&
                api.citas == UpdatedCitas(old(api.citas), id, patch)
      ensures api.usuarios == old(api.usuarios) && api.profesionales == old(api.profesionales)
      ensures saved ==> !isDialogOpen && citas == LoadedCitas(user, api.citas, api.profesionales, api.usuarios)
      ensures saved ==> profesionales == ActiveProfesionales(api.profesionales) && usuarios == LoadedUsuarios(user, api.usuarios)
      ensures saved ==> !isLoading
      ensures !saved ==> isDialogOpen == old(isDialogOpen) && citas == old(citas)
      ensures !saved ==> profesionales == old(profesionales) && usuarios == old(usuarios) && isLoading == old(isLoading)
      ensures editingCita == old(editingCita) && formData == old(formData) && filtroEstado == old(filtroEstado)
    {
      var req := SubmitRequest(user, formData, editingCita);
      if req.UpdateRequest? {
        var result := api.UpdateCita(req.id, req.patch);
        if result.Failure? {
          return false;
        }
      } else {
        var created := api.CreateCita(req.input);
      }
      isDialogOpen := false;
      LoadData();
      saved := true;
    }

    /** `handleDelete`: after confirmation remove the appointment and reload. */
    method HandleDelete(id: int, confirmed: bool)
      modifies this, api
      ensures confirmed ==> api.citas == RemoveKey(old(api.citas), CitaId, id)
      ensures confirmed ==> citas == LoadedCitas(user, api.citas, api.profesionales, api.usuarios)
      ensures confirmed ==> profesionales == ActiveProfesionales(api.profesionales) &&
                            usuarios == LoadedUsuarios(user, api.usuarios) && !isLoading
      ensures !confirmed ==> api.citas == old(api.citas) && citas == old(citas)
      ensures !confirmed ==> profesionales == old(profesionales) && usuarios == old(usuarios) && isLoading == old(isLoading)
      ensures filtroEstado == old(filtroEstado)
      ensures api.usuarios == old(api.usuarios) && api.profesionales == old(api.profesionales)
      ensures isDialogOpen == old(isDialogOpen) && editingCita == old(editingCita) && formData == old(formData)
    {
      if confirmed {
        api.DeleteCita(id);
        LoadData();
      }
    }

    /** The status filter select. */
    method SelectFiltro(filtro: string)
      modifies this`filtroEstado
      ensures filtroEstado == filtro
    {
      filtroEstado := filtro;
    }
  }
}
