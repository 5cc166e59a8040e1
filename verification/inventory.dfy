/**
 * Result handling of a poll (App.fetch and App.getData). The HTTP request is
 * not modelled: its response is an input. Every way the promise of `fetch`
 * rejects is one outcome, `Rejected`.
 */
module Inventory {
  import opened Wrappers
  import opened Status

  const HttpOk := 200

  /** `inventoryStatus` of a product; "" when its `status` is absent or empty. */
  datatype InventoryStatus = InventoryStatus(status: string)

  /** A product entry; `inventoryStatus` may be missing. */
  datatype Product = Product(inventoryStatus: Option<InventoryStatus>)

  /** The parsed body, reduced to `products.product`, which may be missing or null. */
  datatype Payload = Payload(product: Option<seq<Product>>)

  /** An HTTP response: its status code and its body, `None` when it is not JSON. */
  datatype Response = Response(code: int, json: Option<Payload>)

  /** How the promise of one `fetch` settles: resolved with the first product's status, or rejected. */
  datatype Fetched = Resolved(status: string) | Rejected

  /**
   * `data.json()` is awaited before the status code is looked at; on any code
   * but 200 getData yields `undefined`, and reading `products` off it throws,
   * as do an absent product list, an empty one and a missing `inventoryStatus`.
   */
  function FirstStatus(resp: Response): (r: Fetched)
    ensures r.Resolved? <==>
      && resp.code == HttpOk
      && resp.json.Some?
      && resp.json.value.product.Some?
      && |resp.json.value.product.value| > 0
      && resp.json.value.product.value[0].inventoryStatus.Some?
    ensures r.Resolved? ==> r.status == resp.json.value.product.value[0].inventoryStatus.value.status
  {
    match resp.json
    case None => Rejected
    case Some(payload) =>
      if resp.code != HttpOk then Rejected
      else
        match payload.product
        case None => Rejected
        case Some(products) =>
          if |products| == 0 then Rejected
          else
            match products[0].inventoryStatus
            case None => Rejected
            case Some(inventory) => Resolved(inventory.status)
  }

  /** The converted status a poll hands to updateStatus, if it reaches it at all. */
  function Observation(resp: Response): (seen: seq<string>)
    ensures |seen| <= 1
    ensures seen != [] <==> FirstStatus(resp).Resolved? && FirstStatus(resp).status != ""
    ensures seen != [] ==> seen[0] == ConvertStatus(FirstStatus(resp).status) && seen[0] != ""
  {
    match FirstStatus(resp)
    case Rejected => []
    case Resolved(status) => if status != "" then [ConvertStatus(status)] else []
  }

  /** The statuses a run of polls hands to updateStatus, in order. */
  function Observations(resps: seq<Response>): (seen: seq<string>)
    ensures |seen| <= |resps|
  {
    if resps == [] then [] else Observation(resps[0]) + Observations(resps[1..])
  }

  lemma {:induction false} ObservationsAreTruthy(resps: seq<Response>)
    ensures forall i :: 0 <= i < |Observations(resps)| ==> Observations(resps)[i] != ""
  {
    if resps != [] {
      ObservationsAreTruthy(resps[1..]);
      var seen := Observations(resps);
      assert seen == Observation(resps[0]) + Observations(resps[1..]);
      forall i | 0 <= i < |seen| ensures seen[i] != "" {
        if i >= |Observation(resps[0])| {
          assert seen[i] == Observations(resps[1..])[i - |Observation(resps[0])|];
        }
      }
    }
  }
}
