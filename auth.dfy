/** Email-and-password login: check the credentials against the stored hash, then issue a
    token whose payload names the user. bcrypt's compare and the JWT signer are parameters. */
module Auth {
  import opened Common
  import opened UserStore
  import opened Users

  datatype LoginDto = LoginDto(email: string, password: string)

  /** A user record with the password field removed. */
  datatype SafeUser = SafeUser(id: UserId, name: string, email: string)

  /** The claims `login` signs: `{sub, email, name}`. */
  datatype JwtPayload = JwtPayload(sub: UserId, email: string, name: string)

  datatype LoginResponse = LoginResponse(accessToken: string, user: JwtPayload)

  function WithoutPassword(u: User): SafeUser {
    SafeUser(u.id, u.name, u.email)
  }

  /** `validateUser`: the user with this email whose stored hash matches the password,
      without its password; None when there is no such user or the password does not match. */
  function ValidateUser(users: UsersService, dto: LoginDto, compare: (string, string) -> bool): (r: Option<SafeUser>)
    reads users.repository
    requires users.repository.Valid()
    ensures r.Some? <==>
      exists u :: u in users.repository.rows && u.email == dto.email && compare(dto.password, u.password)
    ensures r.Some? ==>
      exists u :: u in users.repository.rows && u.email == dto.email &&
        r.value.id == u.id && r.value.name == u.name && r.value.email == u.email
  {
    match users.FindByEmailForAuth(dto.email)
    case None => None
    case Some(u) => if compare(dto.password, u.password) then Some(WithoutPassword(u)) else None
  }

  /** `login`: Unauthorized exactly when the credentials do not check out; otherwise the
      payload `{sub: id, email, name}` of the matching user and the token signed over it. */
  function Login(users: UsersService, dto: LoginDto, compare: (string, string) -> bool, sign: JwtPayload -> string)
    : (r: Result<LoginResponse, ApiError>)
    reads users.repository
    requires users.repository.Valid()
    ensures r.Err? <==> ValidateUser(users, dto, compare).None?
    ensures r.Err? ==> r.error == Unauthorized
    ensures r.Ok? ==>
      exists u :: u in users.repository.rows && u.email == dto.email &&
        compare(dto.password, u.password) && r.value.user == JwtPayload(u.id, u.email, u.name)
    ensures r.Ok? ==> r.value.accessToken == sign(r.value.user)
  {
    match ValidateUser(users, dto, compare)
    case None => Err(Unauthorized)
    case Some(user) =>
      var payload := JwtPayload(user.id, user.email, user.name);
      Ok(LoginResponse(sign(payload), payload))
  }
}
