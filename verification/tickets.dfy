/**
 * The ticket formula of calculate_tickets (main.py:68-80): no tickets without
 * a stored row or while not subscribed to every sponsor, none below two
 * referrals, then one ticket for the second referral and one more for each
 * further referral, capped at ten.
 */
module Tickets {
  import opened Wrappers
  import opened Schema

  /** Referrals needed before any ticket is granted. */
  const Threshold: nat := 2
  /** The most tickets one user can hold. */
  const Cap: nat := 10

  function Min(a: int, b: int): int { if a <= b then a else b }
  function Max(a: int, b: int): int { if a >= b then a else b }

  /** The tickets of the fetched row; None is a user with no row. */
  function CalculateTickets(row: Option<UserRow>): (t: nat)
    ensures t <= Cap
    ensures t > 0 <==> row.Some? && row.value.allSubscribed && row.value.refCount >= Threshold
  {
    if row.None? || !row.value.allSubscribed then 0
    else if row.value.refCount < Threshold then 0
    else Min(Cap, 1 + Max(0, row.value.refCount - Threshold))
  }

  /** A missing row or a user not subscribed to every sponsor has no tickets. */
  lemma NoTicketsWithoutSubscription(row: Option<UserRow>)
    requires row.None? || !row.value.allSubscribed
    ensures CalculateTickets(row) == 0
  {
  }

  /** A subscribed user below the threshold has no tickets. */
  lemma NoTicketsBelowThreshold(row: UserRow)
    requires row.allSubscribed && row.refCount < Threshold
    ensures CalculateTickets(Some(row)) == 0
  {
  }

  /** From the threshold on, the tickets are the referrals less one, at most ten. */
  lemma TicketsFromThreshold(row: UserRow)
    requires row.allSubscribed && row.refCount >= Threshold
    ensures CalculateTickets(Some(row)) == Min(Cap, row.refCount - 1)
    ensures 1 <= CalculateTickets(Some(row)) <= Cap
    ensures row.refCount >= Cap + 1 ==> CalculateTickets(Some(row)) == Cap
  {
  }

  /**
   * More referrals never mean fewer tickets: for two rows with the same
   * subscription flag, the tickets follow the referral counts.
   */
  lemma TicketsMonotone(a: UserRow, b: UserRow)
    requires a.allSubscribed == b.allSubscribed && a.refCount <= b.refCount
    ensures CalculateTickets(Some(a)) <= CalculateTickets(Some(b))
  {
  }

  /** Only ref_count and all_subscribed matter; the name and the check time do not. */
  lemma TicketsIgnoreOtherColumns(a: UserRow, b: UserRow)
    requires a.allSubscribed == b.allSubscribed && a.refCount == b.refCount
    ensures CalculateTickets(Some(a)) == CalculateTickets(Some(b))
  {
  }
}
