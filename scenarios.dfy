/** A client of the package service and the webhook handler, showing what callers can
    conclude from their contracts alone. */
module Scenarios {
  import opened Common
  import opened AfterShip
  import opened PackageStore
  import opened Packages
  import opened Webhooks

  /** Two owners track the same code; a second attempt by the first owner is a Conflict that
      never reaches the provider. */
  method SharedCodeAcrossOwners(code: string, answer: TrackingObject, now: nat)
    requires code != ""
  {
    var store := new PackagesRepository();
    var service := new PackagesService(store);
    var first := service.Create(CreatePackageDto("Livro", code), 1, Answered(Some(answer)), now);
    var second := service.Create(CreatePackageDto("Presente", code), 2, Answered(Some(answer)), now);
    assert first.Ok? && second.Ok? && store.rows == [first.value, second.value];

    ghost var sentBefore := service.sent;
    var again := service.Create(CreatePackageDto("Livro", code), 1, Answered(Some(answer)), now);
    assert again == Err(Conflict) && service.sent == sentBefore;
  }

  /** One push for the shared code updates the records of both owners. */
  method PushReachesEveryOwner(code: string, now: nat)
  {
    var store := new PackagesRepository();
    store.rows := [Package(0, 1, "Livro", code, "Pending", [], now), Package(1, 2, "Presente", code, "Pending", [], now)];
    store.nextId := 2;
    var hooks := new WebhooksService(store);

    var push := Payload(Some(Msg(Some(code), Some("Delivered"), None)));
    ghost var rows := store.rows;
    var reply := hooks.HandleAfterShipUpdate(push, now + 1, false);
    assert rows[..1] == [rows[0]];
    assert CountSelected(Decode(push).value, rows) == 2;
    assert reply == Succeeded(2);
    assert store.rows[0].status == "Delivered" && store.rows[1].status == "Delivered";
  }

  /** Removing one owner's record asks the provider to drop the shared code even though the
      other owner's record, which is kept, still tracks it. */
  method RemoveDropsSharedCode(code: string, answer: TrackingObject, now: nat)
    requires code != ""
  {
    var store := new PackagesRepository();
    var service := new PackagesService(store);
    var first := service.Create(CreatePackageDto("Livro", code), 1, Answered(Some(answer)), now);
    var second := service.Create(CreatePackageDto("Presente", code), 2, Answered(Some(answer)), now);
    assert store.rows == [first.value, second.value];

    var removed := service.Remove(first.value.id, 1, Rejected(None));
    assert removed == Ok(());
    assert service.sent[|service.sent| - 1] == DeleteRequest(code);
    assert service.FindOne(first.value.id, 1) == Err(NotFound);
    assert second.value in store.rows;
  }
}
