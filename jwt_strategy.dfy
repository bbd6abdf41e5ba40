/** The bearer-token strategy: once the token's signature has been checked, its claims become
    the request's user. */
module JwtStrategy {
  import opened Common
  import opened Users
  import opened Auth

  /** The verified claims of a token: the signed payload's fields plus every other claim the
      token carries (the signer adds `iat` and `exp`). */
  datatype Claims = Claims(sub: UserId, email: string, name: string, others: map<string, string>)

  /** The `request.user` the guarded routes see. */
  datatype RequestUser = RequestUser(id: UserId, email: string, name: string)

  /** The claims a token signed over `payload` carries once verified. */
  function Issued(payload: JwtPayload, registered: map<string, string>): Claims {
    Claims(payload.sub, payload.email, payload.name, registered)
  }

  /** `validate`: `sub` becomes the id; email and name are copied; nothing else is kept. */
  function Validate(payload: Claims): (r: RequestUser)
    ensures r.id == payload.sub && r.email == payload.email && r.name == payload.name
  {
    RequestUser(payload.sub, payload.email, payload.name)
  }

  /** Claims other than sub, email and name have no effect on the request user. */
  lemma ValidateDropsOtherClaims(c: Claims, others: map<string, string>)
    ensures Validate(c.(others := others)) == Validate(c)
  {
  }

  /** Round trip: the request user built from a token that `login` issued is the stored user
      whose credentials were checked, with that user's id, email and name. */
  lemma LoginThenValidate(users: UsersService, dto: LoginDto, compare: (string, string) -> bool,
                          sign: JwtPayload -> string, registered: map<string, string>)
    requires users.repository.Valid()
    requires Login(users, dto, compare, sign).Ok?
    ensures var ru := Validate(Issued(Login(users, dto, compare, sign).value.user, registered));
      && users.FindByEmailForAuth(dto.email).Some?
      && var u := users.FindByEmailForAuth(dto.email).value;
      && ru == RequestUser(u.id, u.email, u.name)
      && users.FindOne(ru.id) == Some(u)
  {
    var u :| u in users.repository.rows && u.email == dto.email &&
      compare(dto.password, u.password) &&
      Login(users, dto, compare, sign).value.user == JwtPayload(u.id, u.email, u.name);
    assert users.FindByEmailForAuth(dto.email) == Some(u);
  }
}
