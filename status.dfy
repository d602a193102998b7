/** The invoice status machine: any of the six labels may be set from any
    state; "paid" stamps the payment date and every other label clears it;
    an unknown label is ignored. */
module Status {
  import opened Wrappers
  import opened Models
  import Calendar

  /** The invoice after the status form submits `newStatus` on day `today`. */
  function ApplyStatus(inv: Invoice, newStatus: string, today: Calendar.Day): (r: Invoice)
    ensures IsStatusLabel(newStatus) ==> r.status == newStatus
    ensures newStatus == "paid" ==> r.paidDate == Some(today)
    ensures IsStatusLabel(newStatus) && newStatus != "paid" ==> r.paidDate == None
    ensures !IsStatusLabel(newStatus) ==> r == inv
    ensures r == inv.(status := r.status, paidDate := r.paidDate)
  {
    if IsStatusLabel(newStatus) then
      var paidDate :=
        if newStatus == "paid" then Some(today)
        else if inv.paidDate.Some? then None
        else inv.paidDate;
      inv.(status := newStatus, paidDate := paidDate)
    else inv
  }

  /** A status update keeps "paid date set iff status is paid" and the status
      among the six labels. */
  lemma ApplyStatusConsistent(inv: Invoice, newStatus: string, today: Calendar.Day)
    requires StatusConsistent(inv)
    ensures StatusConsistent(ApplyStatus(inv, newStatus, today))
  {
  }

  /** Submitting the same label twice on the same day is the same as once. */
  lemma ApplyStatusIdempotent(inv: Invoice, newStatus: string, today: Calendar.Day)
    ensures ApplyStatus(ApplyStatus(inv, newStatus, today), newStatus, today) == ApplyStatus(inv, newStatus, today)
  {
  }

  /** Leaving "paid" for another label forgets the payment date; coming back
      stamps the new day. */
  lemma PaidRoundTrip(inv: Invoice, newStatus: string, paidOn: Calendar.Day, today: Calendar.Day)
    requires IsStatusLabel(newStatus) && newStatus != "paid"
    ensures var left := ApplyStatus(ApplyStatus(inv, "paid", paidOn), newStatus, today);
      && left.paidDate == None
      && ApplyStatus(left, "paid", today).paidDate == Some(today)
  {
  }
}
