/**
 * The bot's handlers over its two tables, as a class whose fields are the
 * users table and the referrals table. Each method performs the same writes,
 * in the same order, as the handler it models; its new state is stated through
 * the transition functions of module Store.
 */
module Bot {
  import opened Wrappers
  import opened Schema
  import opened Decimal
  import opened Referral
  import opened Subscription
  import opened Tickets
  import opened Store

  /** What build_status_message renders: the two channel lists, the flag and the tickets. */
  datatype StatusReport = StatusReport(
    subscribed: seq<Channel>,
    unsubscribed: seq<Channel>,
    allSubscribed: bool,
    tickets: nat)

  class GiveawayBot {
    var users: map<UserId, UserRow>
    var referrals: set<Edge>

    function Snapshot(): Db
      reads this
    {
      Db(users, referrals)
    }

    ghost predicate Valid()
      reads this
    {
      Consistent(Snapshot())
    }

    /**
     * init_db on a fresh database: both tables are created empty. A restart
     * runs CREATE TABLE IF NOT EXISTS and keeps the rows, which this model
     * represents by continuing with the same object.
     */
    constructor ()
      ensures Valid()
      ensures users == map[] && referrals == {}
    {
      users := map[];
      referrals := {};
    }

    /** calculate_tickets: fetch the row and apply the formula; changes nothing. */
    method TicketsOf(id: UserId) returns (t: nat)
      ensures t == CalculateTickets(Lookup(Snapshot(), id))
      ensures t <= Cap
      ensures t > 0 <==> id in users && users[id].allSubscribed && users[id].refCount >= Threshold
    {
      var row := if id in users then Some(users[id]) else None;
      t := CalculateTickets(row);
    }

    /** The /start insert: a new row with ref_count 0 and all_subscribed 0, or nothing. */
    method RegisterUser(id: UserId, name: string, now: nat)
      requires Valid()
      modifies this
      ensures Valid()
      ensures Snapshot() == InsertUser(old(Snapshot()), id, name, now)
    {
      if id !in users {
        users := users[id := UserRow(name, 0, false, now)];
      }
    }

    /** The referral insert and the ref_count increment of /start. */
    method CreditReferral(referrer: UserId, referred: UserId)
      requires Valid()
      requires referrer != referred && referred in users
      modifies this
      ensures Valid()
      ensures Snapshot() == AddReferral(old(Snapshot()), referrer, referred)
    {
      referrals := referrals + {Edge(referrer, referred)};
      if referrer in users {
        var row := users[referrer];
        users := users[referrer := row.(refCount := row.refCount + 1)];
      }
    }

    /** The status upsert of build_status_message. */
    method SaveUserStatus(id: UserId, name: string, subscribed: bool, now: nat)
      requires Valid()
      modifies this
      ensures Valid()
      ensures Snapshot() == SaveStatus(old(Snapshot()), id, name, subscribed, now)
    {
      if id in users {
        var row := users[id];
        users := users[id := row.(allSubscribed := subscribed, lastChecked := now)];
      } else {
        users := users[id := UserRow(name, 0, subscribed, now)];
      }
    }

    /**
     * build_status_message: check every sponsor (answers[i] is the oracle's
     * answer for Sponsors[i]), save the outcome, then compute the tickets.
     */
    method CheckStatus(id: UserId, firstName: string, answers: seq<OracleAnswer>, now: nat)
      returns (report: StatusReport)
      requires Valid() && |answers| == |Sponsors|
      modifies this
      ensures Valid()
      ensures Snapshot() == Apply(old(Snapshot()), Refresh(id, firstName, AllPass(answers), now))
      ensures report.subscribed == Passed(Sponsors, answers)
      ensures report.unsubscribed == Failed(Sponsors, answers)
      ensures report.allSubscribed <==> AllPass(answers)
      ensures id in users && users[id].allSubscribed == report.allSubscribed
      ensures report.tickets == CalculateTickets(Some(users[id]))
      ensures report.tickets > 0 ==> report.allSubscribed
    {
      var subscribed, unsubscribed, allSubscribed := SplitChannels(Sponsors, answers);
      SaveUserStatus(id, firstName, allSubscribed, now);
      var tickets := TicketsOf(id);
      report := StatusReport(subscribed, unsubscribed, allSubscribed, tickets);
    }

    /**
     * The /start handler: register the user under their handle (or user_<id>),
     * credit the referrer named by a valid payload, then run the status check
     * under the user's first name.
     */
    method HandleStart(id: UserId, handle: Option<string>, firstName: string, args: seq<string>,
                       answers: seq<OracleAnswer>, now: nat)
      returns (report: StatusReport)
      requires Valid() && |answers| == |Sponsors|
      modifies this
      ensures Valid()
      ensures Snapshot() == Apply(old(Snapshot()), Start(id, handle, firstName, args, AllPass(answers), now))
      ensures report.subscribed == Passed(Sponsors, answers)
      ensures report.unsubscribed == Failed(Sponsors, answers)
      ensures report.allSubscribed <==> AllPass(answers)
      ensures id in users && report.tickets == CalculateTickets(Some(users[id]))
    {
      RegisterUser(id, StoredName(id, handle), now);
      var outcome := StartPayload(args, id);
      if outcome.Accepted? {
        CreditReferral(outcome.referrer, id);
      }
      report := CheckStatus(id, firstName, answers, now);
    }

    /**
     * The /start handler as written: when the payload passes isdigit() but
     * int() raises, the handler stops before its commit, so no write is kept
     * and no status is sent (None); otherwise it is HandleStart.
     */
    method HandleStartAsWritten(id: UserId, handle: Option<string>, firstName: string, args: seq<string>,
                                answers: seq<OracleAnswer>, now: nat)
      returns (report: Option<StatusReport>)
      requires Valid() && |answers| == |Sponsors|
      modifies this
      ensures Valid()
      ensures Snapshot() == ApplyAsWritten(old(Snapshot()), Start(id, handle, firstName, args, AllPass(answers), now))
      ensures report.None? <==> StartPayloadAsWritten(args, id).Crashes?
      ensures report.Some? ==>
        && report.value.subscribed == Passed(Sponsors, answers)
        && report.value.unsubscribed == Failed(Sponsors, answers)
        && (report.value.allSubscribed <==> AllPass(answers))
        && id in users && report.value.tickets == CalculateTickets(Some(users[id]))
    {
      if StartPayloadAsWritten(args, id).Crashes? {
        return None;
      }
      var r := HandleStart(id, handle, firstName, args, answers, now);
      report := Some(r);
    }
  }
}
