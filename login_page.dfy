/**
 * The login form's submit handler: a blank e-mail is refused first, then a
 * blank password; only then is the login requested, and its outcome becomes
 * one fixed alert.
 */
module LoginPage {
  import opened Outcomes
  import opened Feedback
  import Auth

  const MsgEmailRequired: string := "El correo es obligatorio"
  const MsgPasswordRequired: string := "La contraseña es obligatoria"
  const MsgLoginSucceeded: string := "Inicio de sesión exitoso"
  const MsgBadCredentials: string := "Credenciales incorrectas"

  /** The characters String.prototype.trim removes: white space and line terminators. */
  predicate IsJsWhitespace(c: char) {
    || c == '\t' || c == '\n' || c as int == 0x0B || c as int == 0x0C || c == '\r' || c == ' '
    || c as int == 0x00A0 || c as int == 0x1680 || 0x2000 <= c as int <= 0x200A
    || c as int == 0x2028 || c as int == 0x2029 || c as int == 0x202F || c as int == 0x205F
    || c as int == 0x3000 || c as int == 0xFEFF
  }

  /** The text without its leading white space. */
  function TrimStart(s: string): (r: string)
    ensures |r| <= |s| && r == s[|s| - |r|..]
    ensures forall i | 0 <= i < |s| - |r| :: IsJsWhitespace(s[i])
    ensures r != [] ==> !IsJsWhitespace(r[0])
  {
    if s != [] && IsJsWhitespace(s[0]) then
      var r := TrimStart(s[1..]);
      assert forall i | 1 <= i < |s| - |r| :: s[i] == s[1..][i - 1];
      r
    else s
  }

  /** The text without its trailing white space. */
  function TrimEnd(s: string): (r: string)
    ensures |r| <= |s| && r == s[..|r|]
    ensures forall i | |r| <= i < |s| :: IsJsWhitespace(s[i])
    ensures r != [] ==> !IsJsWhitespace(r[|r| - 1])
  {
    if s != [] && IsJsWhitespace(s[|s| - 1]) then
      var r := TrimEnd(s[..|s| - 1]);
      assert forall i | 0 <= i < |s| - 1 :: s[i] == s[..|s| - 1][i];
      r
    else s
  }

  /**
   * String.prototype.trim: both ends cut. Nothing is left exactly when every
   * character is white space; otherwise the result starts and ends with text.
   */
  function Trim(s: string): (r: string)
    ensures |r| <= |s|
    ensures r == "" <==> forall i | 0 <= i < |s| :: IsJsWhitespace(s[i])
    ensures r != "" ==> !IsJsWhitespace(r[0]) && !IsJsWhitespace(r[|r| - 1])
  {
    var t := TrimStart(s);
    assert t != [] ==> t[0] == s[|s| - |t|];
    TrimEnd(t)
  }

  /** A field the handler refuses: empty, or nothing left after trimming, that is, only white space. */
  predicate IsBlank(s: string)
    ensures IsBlank(s) <==> forall i | 0 <= i < |s| :: IsJsWhitespace(s[i])
  {
    s == "" || Trim(s) == ""
  }

  /** The refusal the guards produce, None when both fields pass. */
  function SubmitGuard(email: string, password: string): (r: Option<string>)
    ensures r == Some(MsgEmailRequired) <==> IsBlank(email)
    ensures r == Some(MsgPasswordRequired) <==> !IsBlank(email) && IsBlank(password)
    ensures r == None <==> !IsBlank(email) && !IsBlank(password)
  {
    if IsBlank(email) then Some(MsgEmailRequired)
    else if IsBlank(password) then Some(MsgPasswordRequired)
    else None
  }

  /** The login form: its two controlled fields and its submit handler. */
  class LoginForm {
    var email: string
    var password: string

    constructor ()
      ensures email == "" && password == ""
    {
      email := "";
      password := "";
    }

    method SetEmail(value: string)
      modifies this
      ensures email == value && password == old(password)
    {
      email := value;
    }

    method SetPassword(value: string)
      modifies this
      ensures password == value && email == old(email)
    {
      password := value;
    }

    /**
     * Submits the form. `reply` is what the login request would answer. Exactly
     * one alert results; the login is requested, with the untrimmed fields, only
     * when both fields pass the guards, and its error text is never shown. A
     * successful login leaves the provider's session, store and location set.
     */
    method HandleSubmit(auth: Auth.AuthProvider, reply: Result<Auth.LoginReply>) returns (alert: Alert)
      modifies auth
      ensures SubmitGuard(email, password).Some? ==>
        && alert == AlertError(SubmitGuard(email, password).value)
        && auth.requests == old(auth.requests)
        && auth.user == old(auth.user) && auth.storage == old(auth.storage) && auth.location == old(auth.location)
      ensures SubmitGuard(email, password).None? ==>
        && auth.requests == old(auth.requests) + [Auth.Credentials(email, password)]
        && if reply.Ok? && auth.jwtSub(reply.value.token).Ok? then
             var s := Auth.SessionOf(reply.value, auth.jwtSub(reply.value.token).value);
             && alert == AlertSuccess(MsgLoginSucceeded)
             && auth.user == Some(s)
             && auth.storage == Auth.StoreAfterLogin(old(auth.storage), s)
             && auth.location == Auth.LandingPath
           else
             && alert == AlertError(MsgBadCredentials)
             && auth.user == old(auth.user) && auth.storage == old(auth.storage) && auth.location == old(auth.location)
    {
      var refusal := SubmitGuard(email, password);
      if refusal.Some? {
        return AlertError(refusal.value);
      }
      var error := auth.Login(email, password, reply);
      if error.None? {
        alert := AlertSuccess(MsgLoginSucceeded);
      } else {
        alert := AlertError(MsgBadCredentials);
      }
    }
  }

  /** With both fields blank only the e-mail refusal appears. */
  lemma EmailCheckedFirst(email: string, password: string)
    requires IsBlank(email) && IsBlank(password)
    ensures SubmitGuard(email, password) == Some(MsgEmailRequired)
  {
  }

  /** An e-mail with text and an empty password is refused for the password, before any request. */
  lemma EmptyPasswordRefused()
    ensures SubmitGuard("a@a.com", "") == Some(MsgPasswordRequired)
  {
    var e := "a@a.com";
    assert !IsJsWhitespace(e[0]);
  }
}
