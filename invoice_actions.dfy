/** The invoice list page: which actions each invoice offers, the overdue flag and the status labels. */
module InvoiceActions {
  import Text

  /** The row's buttons and the action menu's entries, in the order the page shows them. */
  datatype Action = View | Edit | SendAndRecordSale | MarkAsSent | MarkAsPaid | CancelInvoice | DeleteInvoice

  /** The six statuses an invoice can be in. */
  const Statuses: seq<string> := ["DRAFT", "SENT", "VIEWED", "OVERDUE", "PAID", "CANCELLED"]

  /** Neither paid nor cancelled. */
  predicate Open(status: string)
  {
    status != "PAID" && status != "CANCELLED"
  }

  /** The actions shown for an invoice in `status`: View always; the DRAFT-only ones; the ones for open invoices. */
  function Actions(status: string): (r: seq<Action>)
    ensures |r| > 0 && r[0] == View
    ensures Edit in r <==> status == "DRAFT"
    ensures SendAndRecordSale in r <==> status == "DRAFT"
    ensures MarkAsSent in r <==> status == "DRAFT"
    ensures DeleteInvoice in r <==> status == "DRAFT"
    ensures MarkAsPaid in r <==> Open(status)
    ensures CancelInvoice in r <==> Open(status)
  {
    var draft := status == "DRAFT";
    [View]
    + (if draft then [Edit] else [])
    + (if draft then [SendAndRecordSale, MarkAsSent] else [])
    + (if Open(status) then [MarkAsPaid, CancelInvoice] else [])
    + (if draft then [DeleteInvoice] else [])
  }

  /** A paid or cancelled invoice can only be viewed; a draft offers every action. */
  lemma ClosedOnlyViewed(status: string)
    ensures !Open(status) ==> Actions(status) == [View]
    ensures Actions("DRAFT") == [View, Edit, SendAndRecordSale, MarkAsSent, MarkAsPaid, CancelInvoice, DeleteInvoice]
  {
  }

  /** The status `handleStatusChange` asks for, for the two menu entries that call it. */
  function RequestedStatus(a: Action): (r: string)
    requires a == MarkAsSent || a == CancelInvoice
    ensures r in Statuses
  {
    if a == MarkAsSent then "SENT" else "CANCELLED"
  }

  /** Following a status change the page offers, the invoice never gains an action it did not offer before. */
  lemma StatusChangeNarrows(status: string, a: Action)
    requires a in Actions(status) && (a == MarkAsSent || a == CancelInvoice)
    ensures forall b :: b in Actions(RequestedStatus(a)) ==> b in Actions(status)
    ensures |Actions(RequestedStatus(a))| < |Actions(status)|
  {
  }

  /** `isOverdue`, with the clock read passed in as `now` (milliseconds, as `dueDate`). */
  predicate IsOverdue(dueDate: int, status: string, now: int)
  {
    dueDate < now && Open(status)
  }

  /** An overdue invoice can always be paid or cancelled; a paid or cancelled one is never overdue. */
  lemma OverdueIsOpen(dueDate: int, status: string, now: int)
    ensures IsOverdue(dueDate, status, now) ==> MarkAsPaid in Actions(status) && CancelInvoice in Actions(status)
    ensures !Open(status) ==> !IsOverdue(dueDate, status, now)
    ensures Open(status) ==> (IsOverdue(dueDate, status, now) <==> dueDate < now)
  {
  }

  /** `getStatusText`. */
  function StatusText(status: string): string
  {
    match status
    case "DRAFT" => "Draft"
    case "SENT" => "Sent"
    case "VIEWED" => "Viewed"
    case "OVERDUE" => "Overdue"
    case "PAID" => "Paid"
    case "CANCELLED" => "Cancelled"
    case _ => status
  }

  /** A label that keeps the first character of `status` and lower-cases the rest is its capitalised form. */
  lemma CapitalizedLabel(status: string, text: string)
    requires |text| == |status| > 0 && text[0] == status[0]
    requires forall i :: 1 <= i < |status| ==> text[i] == Text.LowerChar(status[i])
    ensures text == Text.Capitalize(status)
  {
    var c := Text.Capitalize(status);
    assert forall i :: 1 <= i < |status| ==> c[i] == Text.Lower(status[1..])[i - 1];
  }

  /** Each of the six statuses is labelled by its own name with the first letter kept and the rest lower-cased. */
  lemma StatusTextKnown(i: nat)
    requires i < |Statuses|
    ensures StatusText(Statuses[i]) == Text.Capitalize(Statuses[i])
  {
    var labels := ["Draft", "Sent", "Viewed", "Overdue", "Paid", "Cancelled"];
    assert StatusText(Statuses[i]) == labels[i];
    CapitalizedLabel(Statuses[i], labels[i]);
  }

  /** Any other string is shown as it is. */
  lemma StatusTextOther(status: string)
    requires status !in Statuses
    ensures StatusText(status) == status
  {
  }
}
