/** The sign-up page of the service-backed storefront
    (frontend/src/pages/Register.tsx): eight fields, checked in order, and
    the seven that the identity service needs handed to the session's
    `register`. */
module RegisterPage {
  import opened Common
  import Session

  datatype RegisterForm = RegisterForm(
    nombres: string, apellidos: string, ci: string, direccion: string,
    telefono: string, email: string, contrasenia: string, confirmPassword: string)

  const FillAll := "Por favor, completa todos los campos."
  const PasswordsDiffer := "Las contraseñas no coinciden."

  predicate AllFilled(f: RegisterForm)
  {
    f.nombres != "" && f.apellidos != "" && f.ci != "" && f.direccion != ""
    && f.telefono != "" && f.email != "" && f.contrasenia != "" && f.confirmPassword != ""
  }

  /** The checks of `handleSubmit`, in order: every field filled, then the
      two passwords equal. */
  function Validate(f: RegisterForm): (r: Option<string>)
    ensures r.None? <==> AllFilled(f) && f.contrasenia == f.confirmPassword
    ensures r == Some(FillAll) <==> !AllFilled(f)
    ensures r == Some(PasswordsDiffer) <==> AllFilled(f) && f.contrasenia != f.confirmPassword
  {
    if !AllFilled(f) then Some(FillAll)
    else if f.contrasenia != f.confirmPassword then Some(PasswordsDiffer)
    else None
  }

  /** The fields handed to `register`: all but the confirmation. */
  function DataOf(f: RegisterForm): Session.RegisterData
  {
    Session.RegisterData(f.nombres, f.apellidos, f.ci, f.direccion, f.telefono, f.email, f.contrasenia)
  }

  /** A form that passes the checks hands over a complete record whose
      password is the one typed twice. */
  lemma AcceptedFormComplete(f: RegisterForm)
    requires Validate(f).None?
    ensures var d := DataOf(f);
      && d.nombres != "" && d.apellidos != "" && d.ci != "" && d.direccion != ""
      && d.telefono != "" && d.email != "" && d.contrasenia != ""
      && d.contrasenia == f.confirmPassword
  {
  }

  class SignUp {
    const session: Session.SessionStore
    var form: RegisterForm
    var formError: string

    constructor (session: Session.SessionStore)
      ensures this.session == session && formError == ""
      ensures form == RegisterForm("", "", "", "", "", "", "", "")
    {
      this.session := session;
      form := RegisterForm("", "", "", "", "", "", "", "");
      formError := "";
    }

    /** `handleSubmit`: the message is cleared first; a failed check shows
        its message and nothing is sent; otherwise `register` is called
        with the form's record (`sent`) and the page goes home exactly when
        it succeeds. `reply` is the identity service's answer. */
    method Submit(reply: Session.AuthReply) returns (sent: Option<Session.RegisterPayload>, goHome: bool)
      modifies this, session
      ensures form == old(form)
      ensures formError == if Validate(form).Some? then Validate(form).value else ""
      ensures sent.Some? <==> Validate(form).None?
      ensures sent.Some? ==> sent.value == Session.RegisterPayload(DataOf(form), "user")
      ensures Validate(form).Some? ==>
        !goHome && session.user == old(session.user) && session.token == old(session.token)
        && session.error == old(session.error)
      ensures Validate(form).None? ==>
        goHome == Session.SignInOutcome(reply, Session.RegisterFallback, session.decode).Ok?
      ensures goHome ==> session.user.Some?
    {
      formError := "";
      sent := None;
      goHome := false;
      var invalid := Validate(form);
      if invalid.Some? {
        formError := invalid.value;
        return;
      }
      var payload, ok := session.Register(DataOf(form), reply);
      sent := Some(payload);
      goHome := ok;
    }
  }
}
