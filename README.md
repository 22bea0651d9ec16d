# Hospital appointments: store, access rules and registration checks

This project models the core of a hospital appointment application.

- **The in-memory store** of `front/src/services/api.ts` is the class `Api.Store`. It holds three tables as sequence fields: users (`usuarios`), professionals (`profesionales`) and appointments (`citas`). It has these operations:
  - `login` and `register`;
  - get, create, update and delete for each table;
  - the two appointment reads, which attach the professional's and the patient's names.
- **The appointment screen** of `front/src/app/components/CitasManager.tsx` is the class `Citas.CitasManager`. It holds the screen state and offers the load, dialog, form, submit, delete and filter handlers. The role rules behind them are pure functions over `Role`:
  - what an actor loads;
  - the form's defaults and status options;
  - the ownership forced on submit;
  - the status filter.
- **The login and registration screen** of `src/app/components/Login.tsx` is the class `LoginForm.LoginScreen`. It covers the two prechecks made before registering and the error shown after a refused login or registration.
- **The domain types** of `front/src/types/index.ts` are datatypes in `Types`: the closed enumerations with their string values, the records, and the shallow merge of a partial record (`{ ...old, ...patch }`).

`Table` holds the array operations the store is built from: `find`, `findIndex`, `filter`, `Math.max` over the ids, and replacing one slot. Each operation has a contract and lemmas, so the store's contracts can be stated with them.

Each store method is proved against a specification function over the old tables, for example `LoginResponse`, `RegisterResponse`/`AfterRegister`, `UpdatedCitas`, `RemoveKey` and `CitasView`. The lemmas then state what the application promises about those functions:
- fresh ids;
- a unique key stays unique;
- only one slot changes on update;
- removal keeps order;
- create followed by delete gives back the table;
- registration followed by login succeeds;
- a patient always owns what they submit.

Appointment status transitions are deliberately left as permissive as the code: an update may set any status from any status.

## Model

| member | source | states |
|---|---|---|
| Types.EstadoCitaClosed | front/src/types/index.ts:11-16 | Appointment status has exactly four values with distinct strings pendiente, confirmada, cancelada, completada; none of them is "todos" |
| Types.EspecialidadClosed | front/src/types/index.ts:18-27 | Specialty has exactly eight values with distinct strings |
| Types.EstadoProfesionalClosed | front/src/types/index.ts:29-33 | Professional status has exactly three values with distinct strings; the string is "activo" exactly for `Activo` |
| Types.StripPassword | front/src/types/index.ts:3-9 | Removing the password leaves a user with no password and every other field unchanged |
| Types.MergeUsuario | front/src/services/api.ts:136 | `{ ...u, ...patch }`: every field the patch carries overrides the stored one, every field it leaves out keeps the stored value |
| Types.MergeProfesional | front/src/services/api.ts:167 | The same field-by-field override for a professional |
| Types.MergeCita | front/src/services/api.ts:232 | The same field-by-field override for an appointment |
| Types.MergeUsuarioLaws | front/src/services/api.ts:136 | Shallow merge of a user: the empty patch is the identity, merging twice is merging once, two merges are one merge of the spread patches, and a patch without an id keeps the id |
| Types.MergeProfesionalLaws | front/src/services/api.ts:167 | The same merge laws for a professional |
| Types.MergeCitaLaws | front/src/services/api.ts:232 | The same merge laws for an appointment; a status-only patch sets the status from any old status and keeps id, professional and patient |
| Table.FindIndex | front/src/services/api.ts:134 | `findIndex`: the first position satisfying the test, or None exactly when no position does |
| Table.FindFirst | front/src/services/api.ts:53 | `find`: the first record satisfying the test; None exactly when none does |
| Table.IndexOfKey | front/src/services/api.ts:165 | Position of the first record with the id; None exactly when the id is absent |
| Table.FindByKey | front/src/services/api.ts:185-186 | The first record with the id; None exactly when the id is absent |
| Table.Filter | front/src/services/api.ts:199 | `filter`: every kept record passes and is from the input, every passing record is kept, all-pass gives the input back, none-pass gives the empty table |
| Table.FilterConcat | front/src/services/api.ts:145 | Filtering distributes over concatenation, so the kept records stay in their original order |
| Table.FilterIdempotent | front/src/app/components/CitasManager.tsx:137-139 | Filtering twice by the same test is filtering once |
| Table.RemoveKey | front/src/services/api.ts:143-146 | Delete: no record with the id remains, every other record remains, and an absent id changes nothing |
| Table.RemoveKeyConcat | front/src/services/api.ts:173-176 | Removal distributes over concatenation (order kept) |
| Table.AppendThenRemove | front/src/services/api.ts:123-146 | Appending a record with a fresh id and then deleting that id gives the table back |
| Table.MaxKey | front/src/services/api.ts:84 | `Math.max` over the ids of a non-empty table: an upper bound attained by some record |
| Table.NextKey | front/src/services/api.ts:157 | The user and professional id: above every stored id and one more than the largest |
| Table.MaxKeyOrZero | front/src/services/api.ts:213 | `Math.max(...ids, 0)`: at least 0, bounds every id, and is 0 or some stored id |
| Table.NextKeyFromZero | front/src/services/api.ts:213-215 | The appointment id: at least 1, above every stored id, 1 on an empty table, otherwise one more than the largest |
| Table.UpdateFirst | front/src/services/api.ts:228-233 | Update in place: length kept, records with other ids kept, absent id changes nothing, and the first record with the id is the one replaced |
| Table.UpdateFirstKeepsUnique | front/src/services/api.ts:163-171 | Replacing a slot by a record with the same id keeps ids unique |
| Table.FilterKeepsUnique | front/src/services/api.ts:175 | Filtering keeps any key unique |
| Table.RemoveKeyKeepsUnique | front/src/services/api.ts:247-250 | Deleting keeps ids unique |
| Table.AppendFreshKeepsUnique | front/src/services/api.ts:125-127 | Appending a record whose id exceeds every stored id keeps ids unique |
| Api.AuthOf | front/src/services/api.ts:56-61 | The authenticated user copies id, name and email; the role is admin exactly when the email is admin@hospital.com, and its string is "admin" or "usuario" accordingly |
| Api.LoginResponse | front/src/services/api.ts:50-70 | Login succeeds exactly when some user matches both email and password; the first match is returned with its role; otherwise the answer is failure with "Credenciales inválidas" |
| Api.RegisterResponse | front/src/services/api.ts:75-104 | `register`'s answer: accepted exactly when neither email nor document is in use; a taken email is refused first, then a taken document; on acceptance the user has the given name and email, role usuario, and an id one above the largest stored id |
| Api.AfterRegister | front/src/services/api.ts:75-104 | The user table after `register`: unchanged on refusal; on acceptance the old table plus one record with the given name, email, document and password and an id above every stored id |
| Api.RegisterRejections | front/src/services/api.ts:75-82 | A taken email is refused first, then a taken document; a refused registration leaves the user table unchanged; with neither in use the registration is accepted and adds one user |
| Api.RegisterAppendsOne | front/src/services/api.ts:84-104 | An accepted registration appends exactly one user with id previous max + 1 and answers with role usuario |
| Api.RegisterKeepsUnique | front/src/services/api.ts:75-93 | Registration keeps ids, emails and documents unique |
| Api.RegisterThenLogin | front/src/services/api.ts:50-104 | Logging in after an accepted registration with the same credentials succeeds as the new user; the role is then decided by the email |
| Api.RegisterTwice | front/src/services/api.ts:75-78 | A second registration with the same email is refused as a taken email and adds no record |
| Api.UsuariosView | front/src/services/api.ts:118-121 | `getUsuarios`: one record per user in order, password removed, all else kept |
| Api.CreateThenDeleteUsuario | front/src/services/api.ts:123-146 | Creating a user and deleting its new id gives the table back, and the listing no longer shows that id |
| Api.EnrichProfesional | front/src/services/api.ts:201-207 | The professional's name and specialty are present exactly when a professional has that id, and come from such a professional; no patient name |
| Api.Enrich | front/src/services/api.ts:184-194 | As above, plus the patient's name, present exactly when a user has that id |
| Api.CitasView | front/src/services/api.ts:180-195 | `getCitas`: one enriched record per stored appointment, in order |
| Api.OwnedBy | front/src/services/api.ts:199 | The appointments of one patient: each kept one is theirs, and each of theirs is kept |
| Api.CitasViewOf | front/src/services/api.ts:197-209 | `getCitasByUsuario`: only that patient's appointments, in order, with the professional attached and no patient name |
| Api.UpdatedUsuarios | front/src/services/api.ts:134-136 | With the id absent the table is unchanged; otherwise the first user with the id becomes its merge with the patch, and the length and every other slot are kept |
| Api.UpdatedProfesionales | front/src/services/api.ts:165-167 | The same for the first professional with the id |
| Api.UpdatedCitas | front/src/services/api.ts:230-232 | The same for the first appointment with the id |
| Api.UpdateCitaFacts | front/src/services/api.ts:228-245 | An update whose patch has no id keeps appointment ids unique and sets any status on an existing appointment |
| Api.StatusUpdate | front/src/services/api.ts:228-232 | A status-only update sets the status in the first slot with the id, keeps the rest of that record, and keeps every other slot and the length |
| Api.SeedUnique | front/src/services/api.ts:26-43 | The seed tables have unique ids, emails and documents; the next user and appointment ids are 4 |
| Api.SeedLogins | front/src/services/api.ts:26-69 | The seeded admin logs in as admin, a seeded patient as usuario, and a wrong password is refused |
| Api.Store.constructor | front/src/services/api.ts:26-43 | The store starts with the seed tables |
| Api.Store.Login | front/src/services/api.ts:50-70 | The answer is `LoginResponse` over the current users; nothing changes |
| Api.Store.Register | front/src/services/api.ts:72-105 | The answer is `RegisterResponse`, the users become `AfterRegister`, the other tables are unchanged |
| Api.Store.GetUsuarios | front/src/services/api.ts:118-121 | Returns the users without passwords |
| Api.Store.CreateUsuario | front/src/services/api.ts:123-130 | Appends the input with the next id and returns it without the password; other tables unchanged |
| Api.Store.UpdateUsuario | front/src/services/api.ts:132-141 | Merges the patch into the first user with the id and returns it without password, or fails with "Usuario no encontrado" leaving the table unchanged |
| Api.Store.DeleteUsuario | front/src/services/api.ts:143-146 | The users become `RemoveKey` of the old users; other tables unchanged |
| Api.Store.GetProfesionales | front/src/services/api.ts:150-153 | Returns the professional table |
| Api.Store.CreateProfesional | front/src/services/api.ts:155-161 | Appends and returns the input with the next id; other tables unchanged |
| Api.Store.UpdateProfesional | front/src/services/api.ts:163-171 | Merges the patch into the first professional with the id and returns it, or fails with "Profesional no encontrado" leaving the table unchanged |
| Api.Store.DeleteProfesional | front/src/services/api.ts:173-176 | The professionals become `RemoveKey` of the old ones; other tables unchanged |
| Api.Store.GetCitas | front/src/services/api.ts:180-195 | Returns `CitasView` of the current tables |
| Api.Store.GetCitasByUsuario | front/src/services/api.ts:197-209 | Returns `CitasViewOf` for the patient |
| Api.Store.CreateCita | front/src/services/api.ts:211-226 | Appends the input with id max(ids, 0) + 1 and returns it enriched; other tables unchanged |
| Api.Store.UpdateCita | front/src/services/api.ts:228-245 | Merges the patch into the first appointment with the id and returns it enriched, or fails with "Cita no encontrada" leaving the table unchanged; no status transition is checked |
| Api.Store.DeleteCita | front/src/services/api.ts:247-250 | The appointments become `RemoveKey` of the old ones; other tables unchanged |
| Citas.LoadedCitas | front/src/app/components/CitasManager.tsx:43 | An admin loads every appointment in order; a patient loads exactly their own, with no patient name |
| Citas.LoadedUsuarios | front/src/app/components/CitasManager.tsx:45 | An admin loads exactly `getUsuarios()`, every user without password; a patient loads none |
| Citas.IsActivo | front/src/app/components/CitasManager.tsx:48 | The status string is "activo" exactly when the professional's status is `Activo` |
| Citas.ActiveProfesionales | front/src/app/components/CitasManager.tsx:48 | The picker holds exactly the active professionals |
| Citas.EstadoOptions | front/src/app/components/CitasManager.tsx:238-250 | An admin is offered all four statuses; anyone else exactly confirmada and cancelada |
| Citas.DefaultForm | front/src/app/components/CitasManager.tsx:67-79 | A new form for a patient starts confirmada and booked for the patient; for an admin it starts pendiente with no patient chosen |
| Citas.DefaultEstadoOffered | front/src/app/components/CitasManager.tsx:70-79 | The default status is among the statuses offered to that actor |
| Citas.EditForm | front/src/app/components/CitasManager.tsx:58-66 | Editing fills the form with the appointment's date, time, status, professional and patient |
| Citas.Payload | front/src/app/components/CitasManager.tsx:88-97 | The payload has exactly the five form fields; a patient's patient id is always their own |
| Citas.AsPatch | front/src/app/components/CitasManager.tsx:91-100 | As an update patch the payload overwrites exactly the five fields and keeps the id |
| Citas.SubmitRequest | front/src/app/components/CitasManager.tsx:99-105 | Submitting while editing updates that appointment's id; otherwise it creates |
| Citas.PatientOwnsSubmission | front/src/app/components/CitasManager.tsx:88-105 | Whatever a patient submits, the created or rewritten appointment belongs to the patient |
| Citas.EditRoundTrip | front/src/app/components/CitasManager.tsx:57-100 | Opening an appointment and submitting the form unchanged writes back exactly the stored record |
| Citas.EstadoIs | front/src/app/components/CitasManager.tsx:139 | The filter's test holds exactly for appointments whose status string equals the filter value, and never for "todos" |
| Citas.CitasFiltradas | front/src/app/components/CitasManager.tsx:137-139 | "todos" gives the whole list; any other value gives the appointments whose status string equals it |
| Citas.CitasFiltradasFacts | front/src/app/components/CitasManager.tsx:137-139 | Filtering by a status keeps exactly that status; refiltering changes nothing; a value that is no status leaves nothing |
| Citas.CitasManager.constructor | front/src/app/components/CitasManager.tsx:17-33 | Empty lists, loading, dialog closed, no edited appointment, filter "todos", empty form |
| Citas.CitasManager.LoadData | front/src/app/components/CitasManager.tsx:39-55 | The lists become what the actor loads, the professionals the active ones, loading ends; dialog, form and filter unchanged |
| Citas.CitasManager.OpenDialog | front/src/app/components/CitasManager.tsx:57-82 | Opens the dialog with the edit form of the given appointment, or the actor's default form |
| Citas.CitasManager.SetFecha | front/src/app/components/CitasManager.tsx:181 | Typing the date changes only that form field |
| Citas.CitasManager.SetHora | front/src/app/components/CitasManager.tsx:191 | Typing the time changes only that form field |
| Citas.CitasManager.SelectProfesional | front/src/app/components/CitasManager.tsx:199-208 | Choosing a listed professional changes only that form field |
| Citas.CitasManager.SelectUsuario | front/src/app/components/CitasManager.tsx:213-225 | An admin choosing a listed user changes only that form field |
| Citas.CitasManager.SelectEstado | front/src/app/components/CitasManager.tsx:233-250 | Choosing an offered status changes only that field; a patient's choice is confirmada or cancelada |
| Citas.CitasManager.CloseDialog | front/src/app/components/CitasManager.tsx:256 | Closes the dialog |
| Citas.CitasManager.HandleSubmit | front/src/app/components/CitasManager.tsx:84-112 | Creates or updates through the store as `SubmitRequest` says; when saved, closes the dialog, reloads every list and ends loading; when the edited appointment is gone, leaves the dialog, the lists and the loading flag unchanged |
| Citas.CitasManager.HandleDelete | front/src/app/components/CitasManager.tsx:114-124 | When confirmed, removes the id from the store, reloads every list and ends loading; otherwise store, lists and loading flag are unchanged; dialog, form and filter are always kept |
| Citas.CitasManager.SelectFiltro | front/src/app/components/CitasManager.tsx:271 | Sets the status filter |
| LoginForm.Utf16Length | src/app/components/Login.tsx:53 | `length` counts UTF-16 code units: between the character count and twice it |
| LoginForm.Utf16LengthBmp | src/app/components/Login.tsx:53 | For Basic Multilingual Plane text the length is the character count |
| LoginForm.RegisterPrecheck | src/app/components/Login.tsx:48-56 | A mismatched confirmation is reported first; otherwise a password shorter than 6 is reported; register is called exactly when both pass |
| LoginForm.ErrorText | src/app/components/Login.tsx:34-36 | `message || fallback`: the message when present and non-empty, else the fallback |
| LoginForm.LoginError | src/app/components/Login.tsx:34-36 | A successful login leaves no error; a refused one shows its non-empty message or else "Error al iniciar sesión" |
| LoginForm.RegisterError | src/app/components/Login.tsx:62-64 | A successful registration leaves no error; a refused one shows its non-empty message or else "Error al registrarse" |
| LoginForm.StoreMessagesShown | src/app/components/Login.tsx:33-64 | With this store a refused login shows "Credenciales inválidas" and a refused registration the store's email or document message |
| LoginForm.LoginScreen.constructor | src/app/components/Login.tsx:13-14 | No error, not loading |
| LoginForm.LoginScreen.HandleLogin | src/app/components/Login.tsx:27-42 | The old error is cleared and replaced by the error of this login; loading ends |
| LoginForm.LoginScreen.HandleRegister | src/app/components/Login.tsx:44-70 | A failed precheck shows its message and leaves the store alone; otherwise register is called with name, email, document and password, the users become `AfterRegister` and its refusal is shown |

## Left out

- The simulated network delay and `async`/`await` are not modelled. Each call is one atomic step. `handleSubmit` and `handleDelete` reload without awaiting; the model completes the reload before the handler returns.
- `localStorage` persistence is not modelled (writes in login and register, `logout`, `getCurrentUser`). The authenticated user is returned as a value.
- `src/contexts/AuthContext.tsx` and its `setUser` are not part of this model. The screens call the store directly; the context returns the store's answer unchanged.
- Api.Store.Register, Api.Store.CreateUsuario, Api.Store.CreateProfesional require a non-empty table. On an empty table `Math.max` gives `-Infinity`, and that is not modelled.
- Citas.Payload, Citas.SubmitRequest, Citas.CitasManager.HandleSubmit require the professional to be chosen, and for an admin the patient too. `parseInt` of an empty picker gives `NaN`, which is not modelled. Ids are unbounded integers, not JavaScript numbers.
- `UsuarioPatch`, `ProfesionalPatch` and `CitaPatch` do not model a patch field explicitly set to `undefined`. They also do not model enrichment fields carried inside an appointment patch or create input.
- The "Error de conexión" branches of the login screen are not modelled. The mock store never throws from login or register, so these branches cannot be reached with it.
- The "Error al cargar los datos" toast is not modelled, because the store's reads never throw. Every other toast and all rendering are left out: tables, badges, dialogs and date formatting.
- `window.confirm` is not modelled. Its answer is the `confirmed` parameter of `HandleDelete`.
- The appointment screen with no authenticated user is not modelled. The code dereferences `user!` there.
- Api.Enrich, Api.EnrichProfesional: when several records share an id, they state that the name comes from some record with that id. They do not say it is the first such record, though the lookup they call (`FindByKey`) does.
- Table.Filter: its contract gives membership and not multiplicity. Order is given by `FilterConcat`.
- No store-wide uniqueness invariant is kept on `Store`. An update patch may carry an id and the code accepts it. Uniqueness is instead proved per operation: `RegisterKeepsUnique`, `UpdateCitaFacts`, `RemoveKeyKeepsUnique`, `AppendFreshKeepsUnique`.
- Status transitions are not enforced, as in the code (`api.ts:228-232`). No transition table is added.
- Delete ownership is not checked, as in the code.
- The type enums are closed datatypes. Out-of-range strings that TypeScript would accept at run time are not modelled.
- A Dafny `string` holds Unicode scalar values, so lone UTF-16 surrogates cannot appear in the model.
- Not part of this model:
  - `ProfesionalesManager.tsx` and `UsuariosManager.tsx`, which are forms forwarding to the store. `UsuariosManager.tsx:71` sends `default123` as a new user's password when none is typed.
  - `Dashboard.tsx` and `App.tsx`, which route tabs by role.
  - The Express and MySQL server files.

Behaviour of the code worth noting:
- Only update reports "not found". Deleting an absent id does nothing (`api.ts:143-146, 173-176, 247-250`).
- Only appointments fall back to id 1 on an empty table (`api.ts:213`). Users and professionals use `Math.max` without the 0.
- A patient's edit sends all five fields, not only the status. Only the patient id is forced (`CitasManager.tsx:89-100`). What a patient can choose is limited to the status options the form offers.
