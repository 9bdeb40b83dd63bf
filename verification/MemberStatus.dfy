/** The status of a list member's row, as the paging queries and the membership operations both see it. */
module MemberStatus {
  datatype Status = Unconfirmed | Confirmed | Unsubscribed
}
