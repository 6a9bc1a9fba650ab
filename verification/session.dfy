/** The session store of the simulated client (src/context/AuthContext.tsx):
    the current user and token, derived from a bearer token whose middle
    part carries the identity claims, kept under the storage key
    'auth_token'. */
module Session {
  import opened Common
  import opened Text

  datatype User = User(id: string, name: string, email: string, role: string)

  /** The claims read from a token's payload part. */
  datatype Claims = Claims(sub: string, email: string, role: string, name: string)

  /** The account fields the registration form sends. */
  datatype RegisterData = RegisterData(
    nombres: string, apellidos: string, ci: string, direccion: string,
    telefono: string, email: string, contrasenia: string)

  /** What is posted to the users endpoint: the form's fields plus the role. */
  datatype RegisterPayload = RegisterPayload(data: RegisterData, rol: string)

  /** The identity endpoint's answer: a token, a refusal carrying the body's
      `message` (possibly empty), or a request that threw with a message. */
  datatype AuthReply = Issued(token: string) | Rejected(message: string) | Unreachable(message: string)

  const TokenMalformed := "Token inválido"
  const TokenUndecodable := "No se pudo decodificar el token"
  const SignInFallback := "Error en la API"
  const RegisterFallback := "Error al registrar"

  /** `decodeToken`: a token must split on '.' into exactly three parts; the
      middle one is handed to `decode`, which stands for
      `JSON.parse(atob(part))` and yields the claims when the part decodes. */
  function DecodeToken(t: string, decode: string -> Option<Claims>): (r: Result<User>)
    ensures Occurrences(t, '.') != 2 ==> r == Err(TokenMalformed)
    ensures r.Ok? <==> |Split(t, '.')| == 3 && decode(Split(t, '.')[1]).Some?
    ensures |Split(t, '.')| == 3 && decode(Split(t, '.')[1]).None? ==> r == Err(TokenUndecodable)
    ensures r.Ok? ==> var c := decode(Split(t, '.')[1]).value;
      r.value.id == c.sub && r.value.email == c.email && r.value.role == c.role && r.value.name == c.name
  {
    SplitCount(t, '.');
    var parts := Split(t, '.');
    if |parts| != 3 then Err(TokenMalformed)
    else
      match decode(parts[1])
      case None => Err(TokenUndecodable)
      case Some(c) => Ok(User(c.sub, c.name, c.email, c.role))
  }

  /** A token assembled from three dot-free parts decodes to the user its
      middle part describes. */
  lemma ThreePartTokenDecodes(header: string, payload: string, signature: string,
                              decode: string -> Option<Claims>)
    requires '.' !in header && '.' !in payload && '.' !in signature
    requires decode(payload).Some?
    ensures var c := decode(payload).value;
      DecodeToken(header + "." + payload + "." + signature, decode)
        == Ok(User(c.sub, c.name, c.email, c.role))
  {
    var parts := [header, payload, signature];
    assert Join(parts[2..], '.') == signature;
    assert Join(parts[1..], '.') == payload + "." + signature;
    assert Join(parts, '.') == header + "." + payload + "." + signature;
    SplitJoin(parts, '.');
    SplitCount(header + "." + payload + "." + signature, '.');
  }

  /** The outcome of signing in or registering: the new token and its user,
      or the message the store records. A refusal with an empty message
      falls back to `fallback`. */
  function SignInOutcome(reply: AuthReply, fallback: string, decode: string -> Option<Claims>)
    : (r: Result<(string, User)>)
    ensures r.Ok? <==> reply.Issued? && DecodeToken(reply.token, decode).Ok?
    ensures r.Ok? ==> r.value.0 == reply.token && Ok(r.value.1) == DecodeToken(reply.token, decode)
    ensures reply.Rejected? ==> r == Err(if reply.message == "" then fallback else reply.message)
    ensures reply.Issued? && r.Err? ==> Err(r.message) == DecodeToken(reply.token, decode)
  {
    match reply
    case Issued(t) =>
      (match DecodeToken(t, decode)
       case Ok(u) => Ok((t, u))
       case Err(m) => Err(m))
    case Rejected(m) => Err(if m == "" then fallback else m)
    case Unreachable(m) => Err(m)
  }

  class SessionStore {
    var user: Option<User>
    var token: Option<string>
    var error: Option<string>
    /** The storage entries 'auth_token' and 'auth_user'. */
    var storedToken: Option<string>
    var storedUser: Option<User>
    const decode: string -> Option<Claims>

    /** Mounting the provider runs `init`: a stored token that decodes sets
        the user and token; one that does not is removed from storage. An
        empty stored token counts as absent. */
    constructor (savedToken: Option<string>, savedUser: Option<User>, decode: string -> Option<Claims>)
      ensures this.decode == decode && error == None && storedUser == savedUser
      ensures savedToken.None? || savedToken == Some("") ==>
        user == None && token == None && storedToken == savedToken
      ensures savedToken.Some? && savedToken.value != "" ==>
        match DecodeToken(savedToken.value, decode)
        case Ok(u) => user == Some(u) && token == savedToken && storedToken == savedToken
        case Err(_) => user == None && token == None && storedToken == None
    {
      this.decode := decode;
      error := None;
      storedUser := savedUser;
      user := None;
      token := None;
      storedToken := savedToken;
      if savedToken.Some? && savedToken.value != "" {
        match DecodeToken(savedToken.value, decode)
        case Ok(u) =>
          token := savedToken;
          user := Some(u);
        case Err(_) =>
          storedToken := None;
      }
    }

    /** `login`: the token is kept and stored only once it decodes; any
        failure records its message and changes nothing else. */
    method Login(reply: AuthReply) returns (ok: bool)
      modifies this
      ensures var outcome := SignInOutcome(reply, SignInFallback, decode);
        && ok == outcome.Ok?
        && (ok ==> user == Some(outcome.value.1) && token == Some(outcome.value.0)
                   && storedToken == Some(outcome.value.0) && error == None)
        && (!ok ==> user == old(user) && token == old(token)
                    && storedToken == old(storedToken) && error == Some(outcome.message))
      ensures storedUser == old(storedUser)
    {
      error := None;
      match SignInOutcome(reply, SignInFallback, decode)
      case Ok((t, u)) =>
        token := Some(t);
        user := Some(u);
        storedToken := Some(t);
        ok := true;
      case Err(m) =>
        error := Some(m);
        ok := false;
    }

    /** `register`: posts the form's fields with role 'user'; on success it
        behaves like a sign-in and also stores the decoded user. */
    method Register(data: RegisterData, reply: AuthReply) returns (sent: RegisterPayload, ok: bool)
      modifies this
      ensures sent.data == data && sent.rol == "user"
      ensures var outcome := SignInOutcome(reply, RegisterFallback, decode);
        && ok == outcome.Ok?
        && (ok ==> user == Some(outcome.value.1) && token == Some(outcome.value.0)
                   && storedToken == Some(outcome.value.0)
                   && storedUser == Some(outcome.value.1) && error == None)
        && (!ok ==> user == old(user) && token == old(token) && storedToken == old(storedToken)
                    && storedUser == old(storedUser) && error == Some(outcome.message))
    {
      error := None;
      sent := RegisterPayload(data, "user");
      match SignInOutcome(reply, RegisterFallback, decode)
      case Ok((t, u)) =>
        token := Some(t);
        user := Some(u);
        storedToken := Some(t);
        storedUser := Some(u);
        ok := true;
      case Err(m) =>
        error := Some(m);
        ok := false;
    }

    /** `logout`: forgets the user and token and removes the stored token. */
    method Logout()
      modifies this
      ensures user == None && token == None && storedToken == None
      ensures storedUser == old(storedUser) && error == old(error)
    {
      user := None;
      token := None;
      storedToken := None;
    }
  }
}
