/** The text helpers of the order history page
    (frontend/src/components/Profile/OrderHistory.tsx:148-184). */
module OrderHistory {
  import opened Common

  const KnownStatuses: seq<string> := ["pending", "processing", "shipped", "delivered", "cancelled"]
  const GrayBadge := "bg-gray-100 text-gray-800"

  /** `getStatusBadgeColor`. */
  function StatusBadgeColor(status: string): (cls: string)
    ensures status !in KnownStatuses ==> cls == GrayBadge
    ensures status in KnownStatuses ==> cls != GrayBadge
  {
    match status
    case "pending" => "bg-yellow-100 text-yellow-800"
    case "processing" => "bg-blue-100 text-blue-800"
    case "shipped" => "bg-purple-100 text-purple-800"
    case "delivered" => "bg-green-100 text-green-800"
    case "cancelled" => "bg-red-100 text-red-800"
    case _ => GrayBadge
  }

  /** The five known statuses get five different badges. */
  lemma BadgesDistinct(i: nat, j: nat)
    requires i < j < |KnownStatuses|
    ensures StatusBadgeColor(KnownStatuses[i]) != StatusBadgeColor(KnownStatuses[j])
  {
  }

  /** `s.charAt(0).toUpperCase() + s.slice(1)`: the first character
      upper-cased, the rest as it was. */
  function Capitalize(s: string): (r: string)
    ensures |r| == |s|
    ensures s != "" ==> r[0] == UpperChar(s[0]) && r[1..] == s[1..]
  {
    Upper(FirstChar(s)) + (if s == "" then "" else s[1..])
  }

  /** `getFormattedStatus`. */
  function FormattedStatus(status: string): (r: string)
    ensures |r| == |status|
    ensures status == "" ==> r == ""
    ensures status != "" ==> r[0] == UpperChar(status[0]) && r[1..] == status[1..]
  {
    Capitalize(status)
  }

  /** `getPaymentMethodText`: three known methods get labels, anything else
      is shown as it is. */
  function PaymentMethodText(paymentMethod: string): (text: string)
    ensures paymentMethod !in {"credit_card", "paypal", "stripe"} ==> text == paymentMethod
    ensures paymentMethod == "credit_card" ==> text == "Credit Card"
    ensures paymentMethod == "paypal" ==> text == "PayPal"
    ensures paymentMethod == "stripe" ==> text == "Stripe"
  {
    match paymentMethod
    case "credit_card" => "Credit Card"
    case "paypal" => "PayPal"
    case "stripe" => "Stripe"
    case _ => paymentMethod
  }

  /** `getPaymentStatusText`. */
  function PaymentStatusText(status: string): (r: string)
    ensures |r| == |status|
    ensures status != "" ==> r[0] == UpperChar(status[0]) && r[1..] == status[1..]
  {
    Capitalize(status)
  }
}
