/** The user table and the repository over it. Email is a unique key besides the id. */
module UserStore {
  import opened Common

  /** A stored user; `password` holds the hash, never the plain text given at sign-up. */
  datatype User = User(id: UserId, name: string, email: string, password: string)

  /** Body of the sign-up request. The email format and password-strength rules are checked
      by the validation library before the service runs; only non-emptiness is modelled. */
  datatype CreateUserDto = CreateUserDto(name: string, email: string, password: string) {
    predicate Valid() { name != "" && email != "" }
  }

  /** A partial user: each present field overwrites the stored one. */
  datatype UpdateUserDto = UpdateUserDto(name: Option<string>, email: Option<string>, password: Option<string>)

  /** What `create` selects from the new row: its email only. */
  datatype CreatedUser = CreatedUser(email: string)

  /** The stored user after the present fields of `dto` are written over it. */
  function Overwritten(u: User, dto: UpdateUserDto): (v: User)
    ensures v.id == u.id
    ensures v.name == (if dto.name.Some? then dto.name.value else u.name)
    ensures v.email == (if dto.email.Some? then dto.email.value else u.email)
    ensures v.password == (if dto.password.Some? then dto.password.value else u.password)
  {
    u.(name := if dto.name.Some? then dto.name.value else u.name,
       email := if dto.email.Some? then dto.email.value else u.email,
       password := if dto.password.Some? then dto.password.value else u.password)
  }

  ghost predicate UniqueIds(rows: seq<User>) {
    forall i, j :: 0 <= i < j < |rows| ==> rows[i].id != rows[j].id
  }

  ghost predicate UniqueEmails(rows: seq<User>) {
    forall i, j :: 0 <= i < j < |rows| ==> rows[i].email != rows[j].email
  }

  class UsersRepository {
    /** The table, in insertion order. */
    var rows: seq<User>
    /** The id the database will give the next row. */
    var nextId: UserId

    ghost predicate Valid()
      reads this
    {
      && (forall i :: 0 <= i < |rows| ==> rows[i].id < nextId)
      && UniqueIds(rows)
      && UniqueEmails(rows)
    }

    constructor ()
      ensures Valid() && rows == []
    {
      rows := [];
      nextId := 0;
    }

    /** `findByEmail`: the one user with this email, if any. */
    function FindByEmail(email: string): (r: Option<User>)
      reads this
      requires Valid()
      ensures r.Some? ==> r.value in rows && r.value.email == email
      ensures r.Some? ==> forall u :: u in rows && u.email == email ==> u == r.value
      ensures r.None? ==> forall u :: u in rows ==> u.email != email
    {
      var k := FirstIndex(rows, (u: User) => u.email == email);
      if k < |rows| then Some(rows[k]) else None
    }

    /** `findById`: the user with this id, if any. */
    function FindById(id: UserId): (r: Option<User>)
      reads this
      requires Valid()
      ensures r.Some? ==> r.value in rows && r.value.id == id
      ensures r.Some? ==> forall u :: u in rows && u.id == id ==> u == r.value
      ensures r.None? ==> forall u :: u in rows ==> u.id != id
    {
      var k := FirstIndex(rows, (u: User) => u.id == id);
      if k < |rows| then Some(rows[k]) else None
    }

    /** `findAll`: every stored user, in table order. */
    function FindAll(): (r: seq<User>)
      reads this
      ensures |r| == |rows| && forall i :: 0 <= i < |r| ==> r[i] == rows[i]
    {
      rows
    }

    /** `create`: stores the DTO's fields with the password replaced by `hashPassword`, and
        answers with the email alone. The email key rejects a second user with that email. */
    method Create(dto: CreateUserDto, hashPassword: string) returns (r: Result<CreatedUser, StoreError>)
      requires Valid()
      modifies this
      ensures Valid()
      ensures old(FindByEmail(dto.email)).Some? ==>
        r == Err(UniqueViolation) && rows == old(rows) && nextId == old(nextId)
      ensures old(FindByEmail(dto.email)).None? ==>
        && r == Ok(CreatedUser(dto.email))
        && rows == old(rows) + [User(old(nextId), dto.name, dto.email, hashPassword)]
        && nextId == old(nextId) + 1
    {
      if FindByEmail(dto.email).Some? {
        return Err(UniqueViolation);
      }
      rows := rows + [User(nextId, dto.name, dto.email, hashPassword)];
      nextId := nextId + 1;
      r := Ok(CreatedUser(dto.email));
    }

    /** `delete`: removes the user with this id, answering with the removed row. */
    method Delete(id: UserId) returns (r: Result<User, StoreError>)
      requires Valid()
      modifies this
      ensures Valid() && nextId == old(nextId)
      ensures r.Err? <==> old(FindById(id)).None?
      ensures r.Err? ==> r.error == RecordNotFound && unchanged(this)
      ensures r.Ok? ==> r.value == old(FindById(id)).value
      ensures forall u :: u in rows <==> u in old(rows) && u.id != id
    {
      var k := FirstIndex(rows, (u: User) => u.id == id);
      if k == |rows| {
        return Err(RecordNotFound);
      }
      ghost var before := rows;
      r := Ok(rows[k]);
      rows := rows[..k] + rows[k + 1..];
      assert before == before[..k] + [before[k]] + before[k + 1..];
    }

    /** `update`: writes the present fields of `dto` over the user with this id; no other user
        changes. An email already used by another user is rejected by the email key. */
    method Update(id: UserId, dto: UpdateUserDto) returns (r: Result<User, StoreError>)
      requires Valid()
      modifies this
      ensures Valid() && nextId == old(nextId)
      ensures old(FindById(id)).None? ==> r == Err(RecordNotFound) && rows == old(rows)
      ensures old(FindById(id)).Some? && dto.email.Some? &&
              (exists u :: u in old(rows) && u.id != id && u.email == dto.email.value) ==>
        r == Err(UniqueViolation) && rows == old(rows)
      ensures old(FindById(id)).Some? &&
              (dto.email.None? || forall u :: u in old(rows) && u.id != id ==> u.email != dto.email.value) ==>
        r.Ok?
      ensures r.Ok? ==>
        && old(FindById(id)).Some?
        && r.value == Overwritten(old(FindById(id)).value, dto)
        && |rows| == |old(rows)|
        && forall i :: 0 <= i < |rows| ==>
             rows[i] == if old(rows)[i].id == id then Overwritten(old(rows)[i], dto) else old(rows)[i]
      ensures r.Err? ==> unchanged(this)
      ensures old(FindById(id)).Some? && r.Err? ==> r.error == UniqueViolation
    {
      var k := FirstIndex(rows, (u: User) => u.id == id);
      if k == |rows| {
        return Err(RecordNotFound);
      }
      if dto.email.Some? {
        var clash := FirstIndex(rows, (u: User) => u.id != id && u.email == dto.email.value);
        if clash < |rows| {
          return Err(UniqueViolation);
        }
      }
      var v := Overwritten(rows[k], dto);
      rows := rows[k := v];
      r := Ok(v);
    }
  }
}
