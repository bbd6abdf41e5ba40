/** The user service: sign-up with an email-uniqueness check and password hashing, and thin
    wrappers over the user repository. */
module Users {
  import opened Common
  import opened UserStore

  /** bcrypt cost factor used at sign-up. */
  const SaltRounds: nat := 10

  class UsersService {
    const repository: UsersRepository

    constructor (repository: UsersRepository)
      ensures this.repository == repository
    {
      this.repository := repository;
    }

    /** `create`: an email already in use is a Conflict and nothing is stored; otherwise one
        user is stored with the password replaced by `hash(password, 10)`, and the answer is
        what the repository answers (the email). `hash` stands for bcrypt. */
    method Create(dto: CreateUserDto, hash: (string, nat) -> string) returns (r: Result<CreatedUser, ApiError>)
      requires repository.Valid() && dto.Valid()
      modifies repository
      ensures repository.Valid()
      ensures old(repository.FindByEmail(dto.email)).Some? ==> r == Err(Conflict) && unchanged(repository)
      ensures old(repository.FindByEmail(dto.email)).None? ==>
        && r == Ok(CreatedUser(dto.email))
        && repository.rows == old(repository.rows) + [User(old(repository.nextId), dto.name, dto.email, hash(dto.password, SaltRounds))]
        && repository.nextId == old(repository.nextId) + 1
    {
      var existing := repository.FindByEmail(dto.email);
      if existing.Some? {
        return Err(Conflict);
      }
      var hashed := hash(dto.password, SaltRounds);
      var created := repository.Create(dto, hashed);
      match created
      case Ok(c) => r := Ok(c);
      case Err(e) => r := Err(Storage(e));
    }

    /** `findByEmailForAuth`: the repository's lookup, unchanged (password hash included). */
    function FindByEmailForAuth(email: string): (r: Option<User>)
      reads repository
      requires repository.Valid()
      ensures r.Some? ==> r.value in repository.rows && r.value.email == email
      ensures r.None? ==> forall u :: u in repository.rows ==> u.email != email
    {
      repository.FindByEmail(email)
    }

    /** `findAll`: every stored user. */
    function FindAll(): (r: seq<User>)
      reads repository
      ensures |r| == |repository.rows| && forall i :: 0 <= i < |r| ==> r[i] == repository.rows[i]
    {
      repository.FindAll()
    }

    /** `findOne`: the user with this id, if any. */
    function FindOne(id: UserId): (r: Option<User>)
      reads repository
      requires repository.Valid()
      ensures r.Some? ==> r.value in repository.rows && r.value.id == id
      ensures r.None? ==> forall u :: u in repository.rows ==> u.id != id
    {
      repository.FindById(id)
    }

    /** `update`: the repository's update. A missing id or an email another user has fails as a
        storage error with no change; otherwise it succeeds. */
    method Update(id: UserId, dto: UpdateUserDto) returns (r: Result<User, ApiError>)
      requires repository.Valid()
      modifies repository
      ensures repository.Valid() && repository.nextId == old(repository.nextId)
      ensures old(FindOne(id)).None? ==> r == Err(Storage(RecordNotFound)) && unchanged(repository)
      ensures old(FindOne(id)).Some? && dto.email.Some? &&
              (exists u :: u in old(repository.rows) && u.id != id && u.email == dto.email.value) ==>
        r == Err(Storage(UniqueViolation))
      ensures old(FindOne(id)).Some? &&
              (dto.email.None? || forall u :: u in old(repository.rows) && u.id != id ==> u.email != dto.email.value) ==>
        r.Ok?
      ensures r.Err? ==> unchanged(repository)
      ensures r.Ok? ==>
        && old(FindOne(id)).Some?
        && r.value == Overwritten(old(FindOne(id)).value, dto)
        && |repository.rows| == |old(repository.rows)|
        && forall i :: 0 <= i < |repository.rows| ==>
             repository.rows[i] ==
               if old(repository.rows)[i].id == id then Overwritten(old(repository.rows)[i], dto)
               else old(repository.rows)[i]
    {
      var updated := repository.Update(id, dto);
      match updated
      case Ok(u) => r := Ok(u);
      case Err(e) => r := Err(Storage(e));
    }

    /** `remove`: the repository's delete, answering with the removed user. */
    method Remove(id: UserId) returns (r: Result<User, ApiError>)
      requires repository.Valid()
      modifies repository
      ensures repository.Valid() && repository.nextId == old(repository.nextId)
      ensures old(FindOne(id)).None? ==> r == Err(Storage(RecordNotFound)) && unchanged(repository)
      ensures old(FindOne(id)).Some? ==> r == Ok(old(FindOne(id)).value)
      ensures forall u :: u in repository.rows <==> u in old(repository.rows) && u.id != id
    {
      var deleted := repository.Delete(id);
      match deleted
      case Ok(u) => r := Ok(u);
      case Err(e) => r := Err(Storage(e));
    }
  }
}
