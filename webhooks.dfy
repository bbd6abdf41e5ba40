/** The provider's push endpoint: a status event for one tracking code is applied to every
    package record with that code, whoever owns it. The handler never raises. */
module Webhooks {
  import opened Common
  import opened AfterShip
  import opened PackageStore

  /** The `msg` envelope of a push; each field may be missing. */
  datatype Msg = Msg(trackingNumber: Option<string>, tag: Option<string>, checkpoints: Option<seq<Checkpoint>>)
  datatype Payload = Payload(msg: Option<Msg>)

  /** One bulk update of the package table: a filter on the tracking code and the new status
      and timeline. None stands for `undefined`, which the database layer drops: a dropped
      filter selects every row, a dropped status leaves each row's status as it was. */
  datatype BulkUpdate = BulkUpdate(code: Option<string>, status: Option<string>, timeline: seq<Checkpoint>)

  /** What the handler answers: nothing (no `msg`), `{success: true, updated: n}`, or
      `{success: false}`. */
  datatype WebhookResult = Ignored | Succeeded(updated: nat) | Failed

  /** Reads the update out of a push; a missing `checkpoints` becomes an empty timeline. */
  function Decode(payload: Payload): (r: Option<BulkUpdate>)
    ensures r.None? <==> payload.msg.None?
    ensures r.Some? ==> r.value.code == payload.msg.value.trackingNumber
    ensures r.Some? ==> r.value.status == payload.msg.value.tag
    ensures r.Some? && payload.msg.value.checkpoints.None? ==> r.value.timeline == []
    ensures r.Some? && payload.msg.value.checkpoints.Some? ==> r.value.timeline == payload.msg.value.checkpoints.value
  {
    match payload.msg
    case None => None
    case Some(m) =>
      Some(BulkUpdate(m.trackingNumber, m.tag, if m.checkpoints.Some? then m.checkpoints.value else []))
  }

  /** The `where` clause of the bulk update. */
  predicate Selects(u: BulkUpdate, p: Package) {
    u.code.None? || p.trackingCode == u.code.value
  }

  /** The `data` clause of the bulk update, stamped with the time of the update. */
  function Applied(u: BulkUpdate, p: Package, now: nat): Package {
    p.(status := if u.status.Some? then u.status.value else p.status, timeline := u.timeline, updatedAt := now)
  }

  /** How many rows the bulk update selects. */
  function CountSelected(u: BulkUpdate, rows: seq<Package>): (n: nat)
    ensures n <= |rows|
  {
    if |rows| == 0 then 0
    else CountSelected(u, rows[..|rows| - 1]) + (if Selects(u, rows[|rows| - 1]) then 1 else 0)
  }

  /** The count is the number of records the update selects. */
  lemma {:induction false} CountSelectedIsNumberOfRecords(u: BulkUpdate, rows: seq<Package>)
    ensures CountSelected(u, rows) == |set i | 0 <= i < |rows| && Selects(u, rows[i])|
  {
    var all := set i | 0 <= i < |rows| && Selects(u, rows[i]);
    if |rows| == 0 {
      assert all == {};
    } else {
      var n := |rows| - 1;
      var prefix := rows[..n];
      CountSelectedIsNumberOfRecords(u, prefix);
      var before := set i | 0 <= i < |prefix| && Selects(u, prefix[i]);
      assert n !in before;
      if Selects(u, rows[n]) {
        assert all == before + {n};
      } else {
        assert all == before;
      }
    }
  }

  /** With the filter present, only records carrying that code are selected, so records of
      other codes are never touched. */
  lemma CodeFilterSelectsOnlyThatCode(payload: Payload, p: Package)
    requires payload.msg.Some? && payload.msg.value.trackingNumber.Some?
    ensures Selects(Decode(payload).value, p) <==> p.trackingCode == payload.msg.value.trackingNumber.value
  {
  }

  /** A push whose `msg` has no `tracking_number` reaches the database with no filter, so it
      selects, and counts, every record in the table. */
  lemma {:induction false} MissingCodeSelectsEveryRecord(payload: Payload, rows: seq<Package>)
    requires payload.msg.Some? && payload.msg.value.trackingNumber.None?
    ensures CountSelected(Decode(payload).value, rows) == |rows|
  {
    if |rows| > 0 {
      MissingCodeSelectsEveryRecord(payload, rows[..|rows| - 1]);
    }
  }

  class WebhooksService {
    /** The package table, written directly by the bulk update. */
    const packages: PackagesRepository

    constructor (packages: PackagesRepository)
      ensures this.packages == packages
    {
      this.packages := packages;
    }

    /** `handleAfterShipUpdate`: without `msg` nothing happens; otherwise every selected
        record gets the new status and timeline and is stamped `now`, every other record and
        every other field stays as it was, and the answer counts the selected records. A
        database failure (`dbFault`) leaves the table as it was and is answered, not raised. */
    method HandleAfterShipUpdate(payload: Payload, now: nat, dbFault: bool) returns (r: WebhookResult)
      requires packages.Valid()
      modifies packages
      ensures packages.Valid() && packages.nextId == old(packages.nextId)
      ensures payload.msg.None? ==> r == Ignored && unchanged(packages)
      ensures payload.msg.Some? && dbFault ==> r == Failed && unchanged(packages)
      ensures payload.msg.Some? && !dbFault ==>
        && r == Succeeded(CountSelected(Decode(payload).value, old(packages.rows)))
        && |packages.rows| == |old(packages.rows)|
        && forall i :: 0 <= i < |packages.rows| ==>
             if Selects(Decode(payload).value, old(packages.rows)[i]) then
               && packages.rows[i].id == old(packages.rows)[i].id
               && packages.rows[i].userId == old(packages.rows)[i].userId
               && packages.rows[i].name == old(packages.rows)[i].name
               && packages.rows[i].trackingCode == old(packages.rows)[i].trackingCode
               && packages.rows[i].status ==
                    (if payload.msg.value.tag.Some? then payload.msg.value.tag.value else old(packages.rows)[i].status)
               && packages.rows[i].timeline == Decode(payload).value.timeline
               && packages.rows[i].updatedAt == now
             else packages.rows[i] == old(packages.rows)[i]
    {
      var update := Decode(payload);
      if update.None? {
        return Ignored;
      }
      if dbFault {
        return Failed;
      }
      var u := update.value;
      ghost var before := packages.rows;
      var i, count := 0, 0;
      while i < |packages.rows|
        invariant 0 <= i <= |packages.rows| == |before|
        invariant packages.nextId == old(packages.nextId)
        invariant count == CountSelected(u, before[..i])
        invariant forall j :: 0 <= j < i ==>
          packages.rows[j] == if Selects(u, before[j]) then Applied(u, before[j], now) else before[j]
        invariant forall j :: i <= j < |before| ==> packages.rows[j] == before[j]
      {
        assert before[..i + 1][..i] == before[..i];
        if Selects(u, packages.rows[i]) {
          packages.rows := packages.rows[i := Applied(u, packages.rows[i], now)];
          count := count + 1;
        }
        i := i + 1;
      }
      assert before[..i] == before;
      r := Succeeded(count);
    }
  }
}
