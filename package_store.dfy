/** The package table and the repository over it: package records, their two unique keys
    (the id, and the pair owner + tracking code), the owner-scoped queries and the writes. */
module PackageStore {
  import opened Common
  import opened AfterShip

  /** Body of POST /packages, as the validation pipe lets it through. */
  datatype CreatePackageDto = CreatePackageDto(name: string, trackingCode: string) {
    /** Both fields are required non-empty strings. */
    predicate Valid() { name != "" && trackingCode != "" }
  }

  /** One row of the package table; `updatedAt` is a timestamp. */
  datatype Package = Package(
    id: PackageId,
    userId: UserId,
    name: string,
    trackingCode: string,
    status: string,
    timeline: seq<Checkpoint>,
    updatedAt: nat)

  /** No two rows share an id. */
  ghost predicate UniqueIds(rows: seq<Package>) {
    forall i, j :: 0 <= i < j < |rows| ==> rows[i].id != rows[j].id
  }

  /** No two rows share an owner and a tracking code (the `userId_trackingCode` key). */
  ghost predicate UniqueOwnerCodes(rows: seq<Package>) {
    forall i, j :: 0 <= i < j < |rows| ==>
      rows[i].userId != rows[j].userId || rows[i].trackingCode != rows[j].trackingCode
  }

  /** Most recently updated first. */
  ghost predicate NewestFirst(s: seq<Package>) {
    forall i, j :: 0 <= i < j < |s| ==> s[i].updatedAt >= s[j].updatedAt
  }

  /** The rows owned by `userId`, in table order. */
  function OwnedBy(rows: seq<Package>, userId: UserId): (r: seq<Package>)
    ensures forall p :: multiset(r)[p] == if p.userId == userId then multiset(rows)[p] else 0
  {
    if |rows| == 0 then []
    else
      assert rows == [rows[0]] + rows[1..];
      (if rows[0].userId == userId then [rows[0]] else []) + OwnedBy(rows[1..], userId)
  }

  /** Puts `p` into the newest-first sequence `s`. */
  function InsertByRecency(p: Package, s: seq<Package>): (r: seq<Package>)
    requires NewestFirst(s)
    ensures NewestFirst(r)
    ensures forall x :: x in r <==> x == p || x in s
    ensures multiset(r) == multiset(s) + multiset{p}
  {
    if |s| == 0 || p.updatedAt >= s[0].updatedAt then
      assert forall x :: x in s ==> x.updatedAt <= p.updatedAt by {
        forall x | x in s ensures x.updatedAt <= p.updatedAt {
          var m :| 0 <= m < |s| && s[m] == x;
          assert m == 0 || s[0].updatedAt >= s[m].updatedAt;
        }
      }
      [p] + s
    else
      var rest := InsertByRecency(p, s[1..]);
      assert s == [s[0]] + s[1..];
      assert forall x :: x in rest ==> x.updatedAt <= s[0].updatedAt by {
        forall x | x in rest ensures x.updatedAt <= s[0].updatedAt {
          if x != p {
            var m :| 0 <= m < |s[1..]| && s[1..][m] == x;
            assert s[m + 1] == x;
          }
        }
      }
      [s[0]] + rest
  }

  /** Orders `s` newest first (the `orderBy: {updatedAt: 'desc'}` of the query). */
  function SortByRecency(s: seq<Package>): (r: seq<Package>)
    ensures NewestFirst(r)
    ensures multiset(r) == multiset(s)
  {
    if |s| == 0 then []
    else
      assert s == [s[0]] + s[1..];
      InsertByRecency(s[0], SortByRecency(s[1..]))
  }

  class PackagesRepository {
    /** The table, in insertion order. */
    var rows: seq<Package>
    /** The id the database will give the next row. */
    var nextId: PackageId

    ghost predicate Valid()
      reads this
    {
      && (forall i :: 0 <= i < |rows| ==> rows[i].id < nextId)
      && UniqueIds(rows)
      && UniqueOwnerCodes(rows)
    }

    constructor ()
      ensures Valid() && rows == []
    {
      rows := [];
      nextId := 0;
    }

    /** `findByUserAndCode`: the owner's record for this tracking code, if any. */
    function FindByUserAndCode(userId: UserId, trackingCode: string): (r: Option<Package>)
      reads this
      requires Valid()
      ensures r.Some? ==> r.value in rows && r.value.userId == userId && r.value.trackingCode == trackingCode
      ensures r.Some? ==> forall p :: p in rows && p.userId == userId && p.trackingCode == trackingCode ==> p == r.value
      ensures r.None? ==> forall p :: p in rows ==> p.userId != userId || p.trackingCode != trackingCode
    {
      var k := FirstIndex(rows, (p: Package) => p.userId == userId && p.trackingCode == trackingCode);
      if k < |rows| then Some(rows[k]) else None
    }

    /** `findByIdAndUserId`: the record with this id, provided `userId` owns it. */
    function FindByIdAndUserId(id: PackageId, userId: UserId): (r: Option<Package>)
      reads this
      requires Valid()
      ensures r.Some? <==> exists p :: p in rows && p.id == id && p.userId == userId
      ensures r.Some? ==> r.value in rows && r.value.id == id && r.value.userId == userId
    {
      var k := FirstIndex(rows, (p: Package) => p.id == id);
      if k < |rows| && rows[k].userId == userId then Some(rows[k]) else None
    }

    /** `findAllByUserId`: every record of the owner, most recently updated first. */
    function FindAllByUserId(userId: UserId): (r: seq<Package>)
      reads this
      ensures NewestFirst(r)
      ensures forall p :: multiset(r)[p] == if p.userId == userId then multiset(rows)[p] else 0
    {
      SortByRecency(OwnedBy(rows, userId))
    }

    /** `create`: inserts a record with the DTO's name and code, the provider's status and
        timeline, and the owner. The `userId_trackingCode` key rejects a second record. */
    method Create(dto: CreatePackageDto, userId: UserId, data: TrackingData, now: nat)
      returns (r: Result<Package, StoreError>)
      requires Valid()
      modifies this
      ensures Valid()
      ensures old(FindByUserAndCode(userId, dto.trackingCode)).Some? ==>
        r == Err(UniqueViolation) && rows == old(rows) && nextId == old(nextId)
      ensures old(FindByUserAndCode(userId, dto.trackingCode)).None? ==>
        && r == Ok(Package(old(nextId), userId, dto.name, dto.trackingCode, data.status, data.timeline, now))
        && rows == old(rows) + [r.value]
        && nextId == old(nextId) + 1
    {
      if FindByUserAndCode(userId, dto.trackingCode).Some? {
        return Err(UniqueViolation);
      }
      var p := Package(nextId, userId, dto.name, dto.trackingCode, data.status, data.timeline, now);
      rows := rows + [p];
      nextId := nextId + 1;
      r := Ok(p);
    }

    /** `updateName`: renames the record with this id; no other record or field changes. */
    method UpdateName(id: PackageId, name: string) returns (r: Result<Package, StoreError>)
      requires Valid()
      modifies this
      ensures Valid() && nextId == old(nextId)
      ensures r.Err? <==> forall p :: p in old(rows) ==> p.id != id
      ensures r.Err? ==> r.error == RecordNotFound && rows == old(rows)
      ensures r.Ok? ==> r.value in rows && r.value.id == id && r.value.name == name
      ensures |rows| == |old(rows)|
      ensures forall i :: 0 <= i < |rows| ==>
        rows[i] == if old(rows)[i].id == id then old(rows)[i].(name := name) else old(rows)[i]
    {
      var k := FirstIndex(rows, (p: Package) => p.id == id);
      if k == |rows| {
        return Err(RecordNotFound);
      }
      var p := rows[k].(name := name);
      rows := rows[k := p];
      assert rows[k] == p;
      r := Ok(p);
    }

    /** `remove`: deletes the record with this id and keeps every other one, in order. */
    method Remove(id: PackageId) returns (r: Result<(), StoreError>)
      requires Valid()
      modifies this
      ensures Valid() && nextId == old(nextId)
      ensures r.Err? <==> forall p :: p in old(rows) ==> p.id != id
      ensures r.Err? ==> r.error == RecordNotFound && rows == old(rows)
      ensures forall p :: p in rows <==> p in old(rows) && p.id != id
      ensures r.Ok? ==> |rows| == |old(rows)| - 1
    {
      var k := FirstIndex(rows, (p: Package) => p.id == id);
      if k == |rows| {
        return Err(RecordNotFound);
      }
      ghost var before := rows;
      rows := rows[..k] + rows[k + 1..];
      assert before == before[..k] + [before[k]] + before[k + 1..];
      r := Ok(());
    }
  }
}
