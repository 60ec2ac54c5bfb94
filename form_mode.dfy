/** The create-or-edit choice shared by the user, loan and book forms: the
    route's `:id` parameter makes the page an edit page (`isEdit =
    Boolean(id)`), and submitting sends `update(Number(id), data)` when
    `isEdit && id` holds and `create(data)` otherwise. */
module FormMode {
  import opened Wrappers
  import opened Text
  import CredentialStore

  /** `Boolean(id)` for the route parameter: present and non-empty. */
  predicate IsEdit(routeId: Option<string>) {
    CredentialStore.Truthy(routeId)
  }

  /** The request a submit sends. */
  datatype SaveCall<T> = Create(data: T) | Update(id: Num, data: T)

  function SaveCallFor<T>(routeId: Option<string>, data: T): (c: SaveCall<T>)
    ensures c.data == data
    ensures c.Update? <==> IsEdit(routeId)
    ensures c.Update? ==> c.id == ToNumber(routeId.value)
  {
    if IsEdit(routeId) then Update(ToNumber(routeId.value), data) else Create(data)
  }

  /** A route id written from an integer addresses that same record. */
  lemma UpdateAddressesRouteRecord<T>(recordId: int, data: T)
    ensures SaveCallFor(Some(IntText(recordId)), data) == Update(Int(recordId), data)
  {
    NumberOfIntText(recordId);
    assert IntText(recordId) != "" by {
      if recordId >= 0 {
        assert |NatText(recordId)| > 0;
      }
    }
  }

  /** A route id that is not a number still makes an update, addressed to NaN. */
  lemma NonNumericRouteIdUpdatesNaN<T>(data: T)
    ensures SaveCallFor(Some("abc"), data) == Update(NaN, data)
  {
    assert !IsDigit("abc"[0]);
  }
}
