/** The authentication middleware: reading the token from the Authorization
    header, resolving it to a user, and admitting a request by role. */
module Auth {
  import opened Wrappers
  import opened Entidades

  const PREFIJO := "Bearer "

  /** Why a request was refused. */
  datatype ErrorAuth =
    | TokenRequerido
    | TokenNoValido
    | TokenInvalido
    | TokenExpirado
    | UsuarioNoEncontrado
    | NoAutenticado
    | AccesoDenegado(rolUsuario: string, requeridos: seq<string>)

  /** The HTTP status each refusal is answered with. */
  function Status(e: ErrorAuth): (s: int)
    ensures s == 403 <==> e.AccesoDenegado?
    ensures s == 401 <==> !e.AccesoDenegado?
  {
    if e.AccesoDenegado? then 403 else 401
  }

  /** What verifying the JWT signature and expiry yields; the verification
      itself is a parameter of the model. */
  datatype Jwt = Valido(userId: Id) | Invalido | Expirado

  /** The token is the header without a leading "Bearer ", or the whole
      header when it has no such prefix. */
  function ExtraerToken(header: string): (t: string)
    ensures |PREFIJO| <= |header| && header[..|PREFIJO|] == PREFIJO ==> PREFIJO + t == header
    ensures !(|PREFIJO| <= |header| && header[..|PREFIJO|] == PREFIJO) ==> t == header
  {
    if |PREFIJO| <= |header| && header[..|PREFIJO|] == PREFIJO then header[|PREFIJO|..] else header
  }

  /** A token sent as "Bearer <token>" is read back unchanged. */
  lemma ExtraerTokenBearer(t: string)
    ensures ExtraerToken(PREFIJO + t) == t
  {
  }

  /** The token in the header, or the refusal for a missing header or an
      empty token. */
  function TokenDeCabecera(header: Option<string>): (r: Result<string, ErrorAuth>)
    ensures (header.None? || header.value == "") <==> r == Failure(TokenRequerido)
    ensures r == Failure(TokenNoValido) <==> header == Some(PREFIJO)
    ensures r.Success? <==> header.Some? && header.value != "" && header.value != PREFIJO
    ensures r.Success? ==> r.value != "" && r.value == ExtraerToken(header.value)
  {
    if header.None? || header.value == "" then Failure(TokenRequerido)
    else
      var t := ExtraerToken(header.value);
      assert header.value == PREFIJO ==> header.value[..|PREFIJO|] == PREFIJO;
      assert t == "" ==> header.value == PREFIJO + t;
      if t == "" then Failure(TokenNoValido) else Success(t)
  }

  /** The user a request is made by: the token must be present, verify, and
      name a user that exists. */
  function VerificarToken(header: Option<string>, verificar: string -> Jwt, usuarios: map<Id, Usuario>)
    : (r: Result<Usuario, ErrorAuth>)
    ensures r.Success? <==>
              && TokenDeCabecera(header).Success?
              && verificar(TokenDeCabecera(header).value).Valido?
              && verificar(TokenDeCabecera(header).value).userId in usuarios
    ensures r.Success? ==> r.value == usuarios[verificar(TokenDeCabecera(header).value).userId]
    ensures TokenDeCabecera(header).Failure? ==> r.Failure? && r.error == TokenDeCabecera(header).error
    ensures TokenDeCabecera(header).Success? && verificar(TokenDeCabecera(header).value).Invalido? ==>
              r == Failure(TokenInvalido)
    ensures TokenDeCabecera(header).Success? && verificar(TokenDeCabecera(header).value).Expirado? ==>
              r == Failure(TokenExpirado)
    ensures TokenDeCabecera(header).Success? && verificar(TokenDeCabecera(header).value).Valido? &&
            verificar(TokenDeCabecera(header).value).userId !in usuarios ==>
              r == Failure(UsuarioNoEncontrado)
    ensures r.Failure? ==> Status(r.error) == 401
  {
    match TokenDeCabecera(header)
    case Failure(e) => Failure(e)
    case Success(token) =>
      match verificar(token)
      case Invalido => Failure(TokenInvalido)
      case Expirado => Failure(TokenExpirado)
      case Valido(userId) =>
        if userId in usuarios then Success(usuarios[userId]) else Failure(UsuarioNoEncontrado)
  }

  /** The roles a route admits: one role or a list of them. */
  datatype RolesPermitidos = Uno(rol: string) | Varios(roles: seq<string>)

  /** A single role counts as a list holding only that role. */
  function Normalizar(permitidos: RolesPermitidos): (r: seq<string>)
    ensures permitidos.Uno? ==> r == [permitidos.rol]
    ensures permitidos.Varios? ==> r == permitidos.roles
  {
    match permitidos
    case Uno(rol) => [rol]
    case Varios(roles) => roles
  }

  /** A request with no authenticated user is refused with 401, one whose
      user has a role outside the list with 403; any other goes on. */
  function RequireRole(permitidos: RolesPermitidos, usuario: Option<Usuario>): (r: Result<Usuario, ErrorAuth>)
    ensures usuario.None? <==> r == Failure(NoAutenticado)
    ensures r.Success? <==> usuario.Some? && usuario.value.rol in Normalizar(permitidos)
    ensures r.Success? ==> r.value == usuario.value
    ensures usuario.Some? && usuario.value.rol !in Normalizar(permitidos) ==>
              r == Failure(AccesoDenegado(usuario.value.rol, Normalizar(permitidos)))
  {
    if usuario.None? then Failure(NoAutenticado)
    else
      var roles := Normalizar(permitidos);
      if usuario.value.rol !in roles then Failure(AccesoDenegado(usuario.value.rol, roles))
      else Success(usuario.value)
  }

  const REQUIRE_TENDERO := Uno("tendero")
  const REQUIRE_PROVEEDOR := Uno("proveedor")
  const REQUIRE_PLATAFORMA := Uno("plataforma")
  const REQUIRE_TENDERO_OR_PLATAFORMA := Varios(["tendero", "plataforma"])
  const REQUIRE_PROVEEDOR_OR_PLATAFORMA := Varios(["proveedor", "plataforma"])

  /** Each of the five route guards admits an authenticated user exactly when
      the user has one of its roles. */
  lemma InstanciasDeRol(u: Usuario)
    ensures RequireRole(REQUIRE_TENDERO, Some(u)).Success? <==> u.rol == "tendero"
    ensures RequireRole(REQUIRE_PROVEEDOR, Some(u)).Success? <==> u.rol == "proveedor"
    ensures RequireRole(REQUIRE_PLATAFORMA, Some(u)).Success? <==> u.rol == "plataforma"
    ensures RequireRole(REQUIRE_TENDERO_OR_PLATAFORMA, Some(u)).Success? <==>
              u.rol == "tendero" || u.rol == "plataforma"
    ensures RequireRole(REQUIRE_PROVEEDOR_OR_PLATAFORMA, Some(u)).Success? <==>
              u.rol == "proveedor" || u.rol == "plataforma"
  {
  }

  /** Giving one role, or a list holding only that role, guards a route the
      same way. */
  lemma UnoComoLista(rol: string, usuario: Option<Usuario>)
    ensures RequireRole(Uno(rol), usuario) == RequireRole(Varios([rol]), usuario)
  {
  }

  /** A guard admitting more roles admits every user a narrower one admits. */
  lemma RequireRoleMonotono(a: seq<string>, b: seq<string>, usuario: Option<Usuario>)
    requires forall x :: x in a ==> x in b
    ensures RequireRole(Varios(a), usuario).Success? ==> RequireRole(Varios(b), usuario).Success?
  {
  }
}
