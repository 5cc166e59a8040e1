/**
 * The status normaliser: raw inventory codes of the shop's API become the
 * strings shown to the user (App.convertStatus).
 */
module Status {

  const OutOfStockCode := "PRODUCT_INVENTORY_OUT_OF_STOCK"
  const InStockCode := "PRODUCT_INVENTORY_IN_STOCK"
  const OutOfStock := "Out of stock"
  const InStock := "In stock"

  /** Total mapping of a raw code to its display string; unknown codes pass through. */
  function ConvertStatus(status: string): (shown: string)
    ensures status == OutOfStockCode ==> shown == OutOfStock
    ensures status == InStockCode ==> shown == InStock
    ensures status != OutOfStockCode && status != InStockCode ==> shown == status
    // a truthy code stays truthy, so a converted status always passes `if (status)`
    ensures shown == "" <==> status == ""
  {
    match status
    case "PRODUCT_INVENTORY_OUT_OF_STOCK" => OutOfStock
    case "PRODUCT_INVENTORY_IN_STOCK" => InStock
    case _ => status
  }

  /** Display strings are not raw codes, so converting twice changes nothing. */
  lemma ConvertStatusIdempotent(status: string)
    ensures ConvertStatus(ConvertStatus(status)) == ConvertStatus(status)
  {
  }
}
