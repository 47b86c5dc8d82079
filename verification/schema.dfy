/**
 * The two tables the bot keeps in PostgreSQL (main.py, init_db), as values.
 * Columns the core never reads (tickets, joined_date, the referral timestamp)
 * are not part of the model.
 */
module Schema {
  /** A chat-platform user id. Telegram user ids are positive. */
  type UserId = nat

  /**
   * One row of the users table. The all_subscribed column is an INTEGER that
   * the bot only ever sets to 0 or 1; it is a boolean here.
   */
  datatype UserRow = UserRow(username: string, refCount: nat, allSubscribed: bool, lastChecked: nat)

  /** One row of the referrals table; UNIQUE(referrer_id, referred_id) makes the table a set. */
  datatype Edge = Edge(referrer: UserId, referred: UserId)
}
