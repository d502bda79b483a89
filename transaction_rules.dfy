/** The text both transaction-entry surfaces compare against and display: the placeholder
    options the two dropdowns start on, and the message each failed rule assigns. */
module TransactionRules {
  const SELECT_TYPE := "Select type"
  const SELECT_CATEGORY := "Select category"
  const TYPE_REQUIRED := "Type is required"
  const CATEGORY_REQUIRED := "Category is required"
  const DETAIL_REQUIRED := "Detail is required"
  const AMOUNT_REQUIRED := "Amount is required"
}
