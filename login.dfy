/** The login and registration screen: the checks made before registering,
    the error shown after a refused login or registration, and the screen
    state its two handlers update. */
module LoginForm {
  import opened Types
  import opened Api

  const PasswordMismatch := "Las contraseñas no coinciden"
  const PasswordTooShort := "La contraseña debe tener al menos 6 caracteres"
  const LoginFallback := "Error al iniciar sesión"
  const RegisterFallback := "Error al registrarse"
  const MinPasswordLength := 6

  /** JavaScript's `s.length`: the number of UTF-16 code units, two for each
      character outside the Basic Multilingual Plane. */
  function Utf16Length(s: string): (n: nat)
    ensures |s| <= n <= 2 * |s|
  {
    if |s| == 0 then 0
    else (if s[0] as int >= 0x1_0000 then 2 else 1) + Utf16Length(s[1..])
  }

  /** For text made only of Basic Multilingual Plane characters the length
      is the character count. */
  lemma {:induction false} Utf16LengthBmp(s: string)
    requires forall i :: 0 <= i < |s| ==> s[i] as int < 0x1_0000
    ensures Utf16Length(s) == |s|
  {
    if |s| > 0 {
      Utf16LengthBmp(s[1..]);
    }
  }

  /** The checks `handleRegister` makes before calling register: first that
      the confirmation matches, then that the password has at least six
      code units. None when register is to be called. */
  function RegisterPrecheck(password: string, confirm: string): (r: Option<string>)
    ensures r == Some(PasswordMismatch) <==> password != confirm
    ensures r == Some(PasswordTooShort) <==> password == confirm && Utf16Length(password) < MinPasswordLength
    ensures r.None? <==> password == confirm && Utf16Length(password) >= MinPasswordLength
  {
    if password != confirm then Some(PasswordMismatch)
    else if Utf16Length(password) < MinPasswordLength then Some(PasswordTooShort)
    else None
  }

  /** `message || fallback`: the message unless it is absent or empty. */
  function ErrorText(message: Option<string>, fallback: string): (r: string)
    ensures message.Some? && message.value != "" ==> r == message.value
    ensures message.None? || message.value == "" ==> r == fallback
  {
    if message.Some? && message.value != "" then message.value else fallback
  }

  /** The error a login leaves on the screen. */
  function LoginError(r: AuthResponse): (e: string)
    ensures r.success ==> e == ""
    ensures !r.success && r.message.Some? && r.message.value != "" ==> e == r.message.value
    ensures !r.success && (r.message.None? || r.message.value == "") ==> e == LoginFallback
  {
    if r.success then "" else ErrorText(r.message, LoginFallback)
  }

  /** The error a registration that reached the store leaves on the screen. */
  function RegisterError(r: AuthResponse): (e: string)
    ensures r.success ==> e == ""
    ensures !r.success && r.message.Some? && r.message.value != "" ==> e == r.message.value
    ensures !r.success && (r.message.None? || r.message.value == "") ==> e == RegisterFallback
  {
    if r.success then "" else ErrorText(r.message, RegisterFallback)
  }

  /** With this store the fallbacks never show: a refused login shows
      "Credenciales inválidas" and a refused registration the store's own
      reason, in the order email, then document. */
  lemma StoreMessagesShown(us: seq<Usuario>, nombre: string, email: string, documento: string, password: string)
    requires |us| > 0
    ensures LoginError(LoginResponse(us, email, password)) ==
              if LoginResponse(us, email, password).success then "" else InvalidCredentials
    ensures RegisterError(RegisterResponse(us, nombre, email, documento)) ==
              if EmailInUse(us, email) then EmailTaken
              else if DocumentoInUse(us, documento) then DocumentoTaken
              else ""
  {
  }

  /** The screen: the error shown and whether a call is in progress. */
  class LoginScreen {
    const api: Store
    var error: string
    var isLoading: bool

    constructor (api: Store)
      ensures this.api == api && error == "" && !isLoading
    {
      this.api := api;
      error := "";
      isLoading := false;
    }

    /** `handleLogin`: the previous error is cleared; the new one depends only
        on this login. */
    method HandleLogin(email: string, password: string)
      modifies this
      ensures error == LoginError(LoginResponse(api.usuarios, email, password))
      ensures !isLoading
    {
      error := "";
      isLoading := true;
      var result := api.Login(email, password);
      if !result.success {
        error := ErrorText(result.message, LoginFallback);
      }
      isLoading := false;
    }

    /** `handleRegister`: a failed precheck shows its message and leaves the
        store alone; otherwise register is called with the name, email,
        document and password, and its refusal, if any, is shown. */
    method HandleRegister(nombre: string, email: string, documento: string, password: string, confirm: string)
      requires RegisterPrecheck(password, confirm).None? ==> |api.usuarios| > 0
      modifies this, api
      ensures RegisterPrecheck(password, confirm).Some? ==>
                error == RegisterPrecheck(password, confirm).value && isLoading == old(isLoading) &&
                api.usuarios == old(api.usuarios)
      ensures RegisterPrecheck(password, confirm).None? ==>
                api.usuarios == AfterRegister(old(api.usuarios), nombre, email, documento, password) &&
                error == RegisterError(RegisterResponse(old(api.usuarios), nombre, email, documento)) &&
                !isLoading
      ensures api.profesionales == old(api.profesionales) && api.citas == old(api.citas)
    {
      error := "";
      if password != confirm {
        error := PasswordMismatch;
        return;
      }
      if Utf16Length(password) < MinPasswordLength {
        error := PasswordTooShort;
        return;
      }
      isLoading := true;
      var result := api.Register(nombre, email, documento, password);
      if !result.success {
        error := ErrorText(result.message, RegisterFallback);
      }
      isLoading := false;
    }
  }
}
