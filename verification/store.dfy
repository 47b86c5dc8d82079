/**
 * The database writes of the /start handler (main.py:145-168) and of the
 * status save in build_status_message (main.py:97-105), as functions from one
 * state of the two tables to the next, and what every sequence of bot events
 * preserves.
 */
module Store {
  import opened Wrappers
  import opened Schema
  import opened Decimal
  import opened Referral
  import opened Tickets

  /** The users table keyed by id, and the set of referral edges. */
  datatype Db = Db(users: map<UserId, UserRow>, referrals: set<Edge>)

  /** The row of a user, or None when the user has none. */
  function Lookup(db: Db, id: UserId): Option<UserRow> {
    if id in db.users then Some(db.users[id]) else None
  }

  /** The name /start stores: the handle when it is non-empty, else user_<id>. */
  function StoredName(id: UserId, handle: Option<string>): string {
    if handle.Some? && handle.value != [] then handle.value else "user_" + Show(id)
  }

  /** Two different users without a handle are stored under different fallback names. */
  lemma FallbackNamesDiffer(a: UserId, b: UserId)
    requires a != b
    ensures StoredName(a, None) != StoredName(b, None)
  {
    ParseShow(a);
    ParseShow(b);
    assert StoredName(a, None)[5..] == Show(a);
    assert StoredName(b, None)[5..] == Show(b);
  }

  /** INSERT INTO users ... ON CONFLICT (user_id) DO NOTHING. */
  function InsertUser(db: Db, id: UserId, name: string, now: nat): Db {
    if id in db.users then db
    else db.(users := db.users[id := UserRow(name, 0, false, now)])
  }

  /**
   * Insert the edge with ON CONFLICT DO NOTHING, then
   * UPDATE users SET ref_count = ref_count + 1 for the referrer, which touches
   * nothing when the referrer has no row.
   */
  function AddReferral(db: Db, referrer: UserId, referred: UserId): Db {
    var users :=
      if referrer in db.users
      then db.users[referrer := db.users[referrer].(refCount := db.users[referrer].refCount + 1)]
      else db.users;
    Db(users, db.referrals + {Edge(referrer, referred)})
  }

  /**
   * INSERT (user_id, username, all_subscribed, last_checked) ... ON CONFLICT
   * (user_id) DO UPDATE SET all_subscribed, last_checked.
   */
  function SaveStatus(db: Db, id: UserId, name: string, subscribed: bool, now: nat): Db {
    if id in db.users
    then db.(users := db.users[id := db.users[id].(allSubscribed := subscribed, lastChecked := now)])
    else db.(users := db.users[id := UserRow(name, 0, subscribed, now)])
  }

  /** The writes of /start before its status check: register, then maybe credit a referrer. */
  function StartWrites(db: Db, id: UserId, handle: Option<string>, args: seq<string>, now: nat): Db {
    var registered := InsertUser(db, id, StoredName(id, handle), now);
    match StartPayload(args, id)
    case Accepted(referrer) => AddReferral(registered, referrer, id)
    case _ => registered
  }

  /**
   * /start as written: a payload that makes int() raise aborts the handler
   * before its commit, so nothing it wrote is kept (the tables stay as they
   * were) and no status is sent; otherwise the writes are those of StartWrites.
   */
  function StartWritesAsWritten(db: Db, id: UserId, handle: Option<string>, args: seq<string>, now: nat): Db {
    if StartPayloadAsWritten(args, id).Crashes? then db
    else StartWrites(db, id, handle, args, now)
  }

  /**
   * A new user whose first command is `/start ²` is not registered by the
   * written handler, while the corrected handler registers them.
   */
  lemma SuperscriptLosesRegistration(db: Db, id: UserId, handle: Option<string>, now: nat)
    requires id !in db.users
    ensures StartWritesAsWritten(db, id, handle, ["\U{B2}"], now) == db
    ensures id !in StartWritesAsWritten(db, id, handle, ["\U{B2}"], now).users
    ensures id in StartWrites(db, id, handle, ["\U{B2}"], now).users
  {
  }

  /**
   * The events that write to the tables: a /start command, and a status check
   * on its own (the refresh and back buttons). `subscribed` is the outcome of
   * the sponsor check that the event ran.
   */
  datatype Event =
    | Start(id: UserId, handle: Option<string>, firstName: string, args: seq<string>, subscribed: bool, now: nat)
    | Refresh(id: UserId, firstName: string, subscribed: bool, now: nat)

  function Apply(db: Db, e: Event): Db {
    match e
    case Start(id, handle, firstName, args, subscribed, now) =>
      SaveStatus(StartWrites(db, id, handle, args, now), id, firstName, subscribed, now)
    case Refresh(id, firstName, subscribed, now) =>
      SaveStatus(db, id, firstName, subscribed, now)
  }

  function Run(db: Db, events: seq<Event>): Db
    decreases |events|
  {
    if |events| == 0 then db else Run(Apply(db, events[0]), events[1..])
  }

  /**
   * An event as the handlers are written: a /start whose payload makes int()
   * raise commits nothing, so the tables stay as they were; every other event
   * is the same step as Apply.
   */
  function ApplyAsWritten(db: Db, e: Event): Db {
    if e.Start? && StartPayloadAsWritten(e.args, e.id).Crashes? then db else Apply(db, e)
  }

  function RunAsWritten(db: Db, events: seq<Event>): Db
    decreases |events|
  {
    if |events| == 0 then db else RunAsWritten(ApplyAsWritten(db, events[0]), events[1..])
  }

  /** Nobody refers themselves, and every referred user has a row. */
  ghost predicate Consistent(db: Db) {
    forall e | e in db.referrals :: e.referrer != e.referred && e.referred in db.users
  }

  /**
   * b is a later state of a: no edge and no user is lost, no ref_count goes
   * down, and no stored name changes.
   */
  ghost predicate Extends(a: Db, b: Db) {
    && a.referrals <= b.referrals
    && forall u | u in a.users ::
         && u in b.users
         && a.users[u].refCount <= b.users[u].refCount
         && a.users[u].username == b.users[u].username
  }

  // ----- One step at a time -----

  /** Registration is insert-if-absent: an existing row is left exactly as it was. */
  lemma InsertUserIfAbsent(db: Db, id: UserId, name: string, now: nat)
    ensures id in db.users ==> InsertUser(db, id, name, now) == db
    ensures id !in db.users ==>
      && InsertUser(db, id, name, now).users == db.users[id := UserRow(name, 0, false, now)]
      && InsertUser(db, id, name, now).referrals == db.referrals
  {
  }

  /**
   * Each accepted payload adds its edge at most once, but raises the
   * referrer's ref_count by exactly one every time, and only when the
   * referrer has a row; no other row changes.
   */
  lemma AddReferralEffect(db: Db, referrer: UserId, referred: UserId)
    ensures AddReferral(db, referrer, referred).referrals == db.referrals + {Edge(referrer, referred)}
    ensures Edge(referrer, referred) in db.referrals ==> AddReferral(db, referrer, referred).referrals == db.referrals
    ensures AddReferral(db, referrer, referred).users.Keys == db.users.Keys
    ensures referrer in db.users ==>
      AddReferral(db, referrer, referred).users[referrer] ==
        db.users[referrer].(refCount := db.users[referrer].refCount + 1)
    ensures forall u | u in db.users && u != referrer :: AddReferral(db, referrer, referred).users[u] == db.users[u]
  {
  }

  /** The same payload twice: one edge, but two increments. */
  lemma RepeatedReferralCountsTwice(db: Db, referrer: UserId, referred: UserId)
    requires referrer in db.users
    ensures var twice := AddReferral(AddReferral(db, referrer, referred), referrer, referred);
      && twice.referrals == AddReferral(db, referrer, referred).referrals
      && twice.users[referrer].refCount == db.users[referrer].refCount + 2
  {
  }

  /** The status save creates a row if missing, else changes only all_subscribed and last_checked. */
  lemma SaveStatusEffect(db: Db, id: UserId, name: string, subscribed: bool, now: nat)
    ensures var r := SaveStatus(db, id, name, subscribed, now);
      && r.referrals == db.referrals
      && r.users.Keys == db.users.Keys + {id}
      && r.users[id].allSubscribed == subscribed && r.users[id].lastChecked == now
      && (id in db.users ==>
            r.users[id].username == db.users[id].username && r.users[id].refCount == db.users[id].refCount)
      && (id !in db.users ==> r.users[id] == UserRow(name, 0, subscribed, now))
      && forall u | u in db.users && u != id :: r.users[u] == db.users[u]
  {
  }

  /** A rejected payload writes neither an edge nor any ref_count: /start only registers. */
  lemma RejectedPayloadOnlyRegisters(db: Db, id: UserId, handle: Option<string>, args: seq<string>, now: nat)
    requires !StartPayload(args, id).Accepted?
    ensures var r := StartWrites(db, id, handle, args, now);
      && r.referrals == db.referrals
      && forall u | u in db.users :: u in r.users && r.users[u] == db.users[u]
  {
  }

  /** An accepted payload records the edge and credits the parsed referrer. */
  lemma AcceptedPayloadCredits(db: Db, id: UserId, handle: Option<string>, args: seq<string>, now: nat)
    requires StartPayload(args, id).Accepted?
    ensures var referrer := StartPayload(args, id).referrer;
      var r := StartWrites(db, id, handle, args, now);
      && referrer != id
      && r.referrals == db.referrals + {Edge(referrer, id)}
      && (referrer in db.users ==> r.users[referrer].refCount == db.users[referrer].refCount + 1)
      && (referrer !in db.users ==> referrer !in r.users)
  {
  }

  // ----- Every event, and every run of events -----

  lemma ExtendsTransitive(a: Db, b: Db, c: Db)
    requires Extends(a, b) && Extends(b, c)
    ensures Extends(a, c)
  {
  }

  lemma InsertUserExtends(db: Db, id: UserId, name: string, now: nat)
    ensures Extends(db, InsertUser(db, id, name, now))
  {
  }

  lemma AddReferralExtends(db: Db, referrer: UserId, referred: UserId)
    ensures Extends(db, AddReferral(db, referrer, referred))
  {
  }

  lemma SaveStatusExtends(db: Db, id: UserId, name: string, subscribed: bool, now: nat)
    ensures Extends(db, SaveStatus(db, id, name, subscribed, now))
  {
  }

  /** No event drops an edge or a row, lowers a ref_count or renames a user. */
  lemma {:induction false} ApplyExtends(db: Db, e: Event)
    ensures Extends(db, Apply(db, e))
  {
    match e
    case Start(id, handle, firstName, args, subscribed, now) =>
      var registered := InsertUser(db, id, StoredName(id, handle), now);
      var written := StartWrites(db, id, handle, args, now);
      InsertUserExtends(db, id, StoredName(id, handle), now);
      if StartPayload(args, id).Accepted? {
        AddReferralExtends(registered, StartPayload(args, id).referrer, id);
        ExtendsTransitive(db, registered, written);
      }
      SaveStatusExtends(written, id, firstName, subscribed, now);
      ExtendsTransitive(db, written, Apply(db, e));
    case Refresh(id, firstName, subscribed, now) =>
      SaveStatusExtends(db, id, firstName, subscribed, now);
  }

  /** Every event keeps the tables consistent. */
  lemma ApplyConsistent(db: Db, e: Event)
    requires Consistent(db)
    ensures Consistent(Apply(db, e))
  {
  }

  /** Over any run of events, ref_count never decreases and nothing is deleted. */
  lemma {:induction false} RunExtends(db: Db, events: seq<Event>)
    ensures Extends(db, Run(db, events))
    decreases |events|
  {
    if |events| > 0 {
      var next := Apply(db, events[0]);
      ApplyExtends(db, events[0]);
      RunExtends(next, events[1..]);
      ExtendsTransitive(db, next, Run(next, events[1..]));
    }
  }

  /** Over any run of events from a consistent state, nobody ever refers themselves. */
  lemma {:induction false} RunConsistent(db: Db, events: seq<Event>)
    requires Consistent(db)
    ensures Consistent(Run(db, events))
    decreases |events|
  {
    if |events| > 0 {
      ApplyConsistent(db, events[0]);
      RunConsistent(Apply(db, events[0]), events[1..]);
    }
  }

  /**
   * A user who is subscribed both before and after a run of events holds at
   * least as many tickets afterwards.
   */
  lemma {:induction false} TicketsNeverDropWhileSubscribed(db: Db, events: seq<Event>, u: UserId)
    requires u in db.users && db.users[u].allSubscribed
    requires var later := Run(db, events); u in later.users && later.users[u].allSubscribed
    ensures CalculateTickets(Lookup(db, u)) <= CalculateTickets(Lookup(Run(db, events), u))
  {
    RunExtends(db, events);
    TicketsMonotone(db.users[u], Run(db, events).users[u]);
  }

  // ----- The handlers as written -----

  /** Over any run of the written handlers, ref_count never decreases and nothing is deleted. */
  lemma {:induction false} RunAsWrittenExtends(db: Db, events: seq<Event>)
    ensures Extends(db, RunAsWritten(db, events))
    decreases |events|
  {
    if |events| > 0 {
      var next := ApplyAsWritten(db, events[0]);
      ApplyExtends(db, events[0]);
      RunAsWrittenExtends(next, events[1..]);
      ExtendsTransitive(db, next, RunAsWritten(next, events[1..]));
    }
  }

  /** Over any run of the written handlers from a consistent state, nobody ever refers themselves. */
  lemma {:induction false} RunAsWrittenConsistent(db: Db, events: seq<Event>)
    requires Consistent(db)
    ensures Consistent(RunAsWritten(db, events))
    decreases |events|
  {
    if |events| > 0 {
      ApplyConsistent(db, events[0]);
      RunAsWrittenConsistent(ApplyAsWritten(db, events[0]), events[1..]);
    }
  }

  /** The ticket guarantee holds for the written handlers too. */
  lemma TicketsNeverDropAsWritten(db: Db, events: seq<Event>, u: UserId)
    requires u in db.users && db.users[u].allSubscribed
    requires var later := RunAsWritten(db, events); u in later.users && later.users[u].allSubscribed
    ensures CalculateTickets(Lookup(db, u)) <= CalculateTickets(Lookup(RunAsWritten(db, events), u))
  {
    RunAsWrittenExtends(db, events);
    TicketsMonotone(db.users[u], RunAsWritten(db, events).users[u]);
  }
}
