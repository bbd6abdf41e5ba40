/** The package service: create, list, read, rename and remove a user's packages, keeping the
    store and the tracking provider in step. Each operation checks the owner's record first,
    then calls the provider, then writes the store. */
module Packages {
  import opened Common
  import opened AfterShip
  import opened PackageStore

  /** Body of PATCH /packages/:id: an optional new name. */
  datatype UpdatePackageDto = UpdatePackageDto(name: Option<string>)

  /** True when the DTO carries a usable name (`dto.name` is truthy). */
  predicate HasName(dto: UpdatePackageDto) {
    dto.name.Some? && dto.name.value != ""
  }

  class PackagesService {
    const repository: PackagesRepository
    /** Requests sent to the tracking provider so far, oldest first. */
    ghost var sent: seq<Request>

    constructor (repository: PackagesRepository)
      ensures this.repository == repository && sent == []
    {
      this.repository := repository;
      sent := [];
    }

    /** `create`: a second record for the same owner and code is a Conflict, decided before
        the provider is asked; a provider failure is passed on and nothing is stored; otherwise
        exactly one record is added, carrying the provider's status and timeline. */
    method Create(dto: CreatePackageDto, userId: UserId, remote: RemoteOutcome<Option<TrackingObject>>, now: nat)
      returns (r: Result<Package, ApiError>)
      requires repository.Valid() && dto.Valid()
      modifies this, repository
      ensures repository.Valid()
      ensures old(repository.FindByUserAndCode(userId, dto.trackingCode)).Some? ==>
        r == Err(Conflict) && sent == old(sent) && unchanged(repository)
      ensures old(repository.FindByUserAndCode(userId, dto.trackingCode)).None? ==>
        sent == old(sent) + [CreateRequest(dto.trackingCode)]
      ensures old(repository.FindByUserAndCode(userId, dto.trackingCode)).None? ==>
        match CreateTracking(dto.trackingCode, remote)
        case Err(e) => r == Err(e) && unchanged(repository)
        case Ok(data) =>
          && r.Ok?
          && repository.rows == old(repository.rows) + [r.value]
          && r.value.id == old(repository.nextId)
          && r.value.userId == userId
          && r.value.name == dto.name
          && r.value.trackingCode == dto.trackingCode
          && r.value.status == data.status
          && r.value.timeline == data.timeline
          && r.value.updatedAt == now
    {
      var existing := repository.FindByUserAndCode(userId, dto.trackingCode);
      if existing.Some? {
        return Err(Conflict);
      }
      sent := sent + [CreateRequest(dto.trackingCode)];
      var tracking := CreateTracking(dto.trackingCode, remote);
      if tracking.Err? {
        return Err(tracking.error);
      }
      var created := repository.Create(dto, userId, tracking.value, now);
      match created
      case Ok(p) => r := Ok(p);
      case Err(e) => r := Err(Storage(e));
    }

    /** `findAll`: the owner's records as the repository lists them. */
    function FindAll(userId: UserId): (r: seq<Package>)
      reads repository
      ensures NewestFirst(r)
      ensures forall p :: multiset(r)[p] == if p.userId == userId then multiset(repository.rows)[p] else 0
    {
      repository.FindAllByUserId(userId)
    }

    /** `findOne`: the record, or NotFound when it is absent or owned by someone else
        (the two cases are not told apart). */
    function FindOne(id: PackageId, userId: UserId): (r: Result<Package, ApiError>)
      reads repository
      requires repository.Valid()
      ensures r.Ok? <==> exists p :: p in repository.rows && p.id == id && p.userId == userId
      ensures r.Ok? ==> r.value in repository.rows && r.value.id == id && r.value.userId == userId
      ensures r.Err? ==> r.error == NotFound
    {
      match repository.FindByIdAndUserId(id, userId)
      case Some(p) => Ok(p)
      case None => Err(NotFound)
    }

    /** `update`: NotFound unless the caller owns the record; without a usable name the record
        comes back unchanged and nothing is written; otherwise only its name changes. */
    method Update(id: PackageId, userId: UserId, dto: UpdatePackageDto) returns (r: Result<Package, ApiError>)
      requires repository.Valid()
      modifies repository
      ensures repository.Valid() && repository.nextId == old(repository.nextId)
      ensures old(FindOne(id, userId)).Err? ==> r == Err(NotFound) && unchanged(repository)
      ensures old(FindOne(id, userId)).Ok? && !HasName(dto) ==>
        r == old(FindOne(id, userId)) && unchanged(repository)
      ensures old(FindOne(id, userId)).Ok? && HasName(dto) ==>
        && r == Ok(old(FindOne(id, userId)).value.(name := dto.name.value))
        && |repository.rows| == |old(repository.rows)|
        && forall i :: 0 <= i < |repository.rows| ==>
             repository.rows[i] ==
               if old(repository.rows)[i].id == id then old(repository.rows)[i].(name := dto.name.value)
               else old(repository.rows)[i]
    {
      var pkg := repository.FindByIdAndUserId(id, userId);
      if pkg.None? {
        return Err(NotFound);
      }
      if !HasName(dto) {
        return Ok(pkg.value);
      }
      var updated := repository.UpdateName(id, dto.name.value);
      match updated
      case Ok(p) => r := Ok(p);
      case Err(e) => r := Err(Storage(e));
    }

    /** `remove`: NotFound unless the caller owns the record; otherwise the provider is asked
        to drop the record's tracking code, whatever other owners still track it, and the
        record is deleted whatever the provider answered. */
    method Remove(id: PackageId, userId: UserId, remote: RemoteOutcome<()>) returns (r: Result<(), ApiError>)
      requires repository.Valid()
      modifies this, repository
      ensures repository.Valid()
      ensures old(FindOne(id, userId)).Err? ==> r == Err(NotFound) && sent == old(sent) && unchanged(repository)
      ensures old(FindOne(id, userId)).Ok? ==>
        && r == Ok(())
        && sent == old(sent) + [DeleteRequest(old(FindOne(id, userId)).value.trackingCode)]
        && (forall p :: p in repository.rows <==> p in old(repository.rows) && p.id != id)
        && (forall u :: FindOne(id, u) == Err(NotFound))
    {
      var pkg := repository.FindByIdAndUserId(id, userId);
      if pkg.None? {
        return Err(NotFound);
      }
      sent := sent + [DeleteRequest(pkg.value.trackingCode)];
      var deleted := DeleteTracking(pkg.value.trackingCode, remote);
      match deleted {
        case Raised(e) => return Err(e);
        case Completed =>
      }
      var removed := repository.Remove(id);
      match removed
      case Ok(_) => r := Ok(());
      case Err(e) => r := Err(Storage(e));
    }
  }
}
