# Giveaway bot rules core, in Dafny

This project models the rules core of a Telegram giveaway bot (`main.py`).
Users register with `/start`, invite friends through a personal referral link
(`?start=<id>`), must join every sponsor channel, and earn tickets from their
referral count. The model covers four parts:

- **Referral payload** (`referral.dfy`, `decimal.dfy`): `/start <payload>` credits a referrer only if the payload is a
  non-empty string of digits whose value is not the user's own id.
- **Sponsor check** (`subscription.dfy`): each sponsor channel's membership status is split into a
  subscribed and an unsubscribed list, in sponsor order. The user is "all subscribed"
  exactly when the unsubscribed list is empty. A failed membership query counts
  as not subscribed.
- **Ticket formula** (`tickets.dfy`): no row, or not all subscribed, gives 0 tickets. Fewer than two
  referrals gives 0. Otherwise the count is `min(10, ref_count - 1)`.
- **The two tables** (`store.dfy`, `bot.dfy`): the users table is a map from id to a row (name,
  `ref_count`, `all_subscribed`, `last_checked`). The referrals table is a set of
  (referrer, referred) edges. `/start` inserts the user if absent. An accepted
  payload then inserts the edge (a no-op if it exists) and adds one to the
  referrer's `ref_count` if the referrer has a row. The status check upserts the
  user's `all_subscribed`.

`store.dfy` states each write as a function from one table state to the next,
and proves what any sequence of `/start` and status-check events preserves:
- no row or edge disappears;
- no `ref_count` decreases;
- no stored name changes;
- nobody is recorded as their own referrer.

`bot.dfy` is the imperative side. Class `GiveawayBot` holds the two tables as
fields. Its methods perform the handlers' writes in the source's order, with the
sponsor loop as a `for` loop.

The code as written counts repeats. Every accepted `/start` payload raises the
referrer's `ref_count`, even when the edge already existed
(`Store.RepeatedReferralCountsTwice`). So `ref_count` counts accepted payloads,
not distinct invited users. The model follows the code. The bot has no
activation flag, seasons, bonus spins or drawing, and the model has none.

External inputs become parameters:
- the membership oracle's answers (one per sponsor);
- the clock (`now`);
- the user's Telegram handle and first name.

## Model

| member | source | states |
|---|---|---|
| `Decimal.ParseShow` | main.py:199 | reading back the decimal text of an id (the `?start=<id>` link) gives that id |
| `Decimal.ShowParse` | main.py:155 | a digit string without leading zeros is exactly the decimal text of its value, so parse and show are inverse on canonical numerals |
| `Decimal.Show` | main.py:149 | the decimal text of a number is a non-empty digit string without leading zeros |
| `Referral.StartPayload` | main.py:153-155 | never crashes; accepts exactly when there is a first argument that is a non-empty digit string whose value differs from the user's id, and then names that value as referrer |
| `Referral.StartPayloadAsWritten` | main.py:153-155 | crashes exactly when the first argument passes `isdigit` but is not all ASCII digits; never accepts the user's own id |
| `Referral.SuperscriptCrashes` | main.py:155 | `/start ²` makes the written guard crash |
| `Referral.AsWrittenAgreesUnlessCrash` | main.py:155 | wherever the written guard does not crash it decides exactly as the corrected one |
| `Referral.FollowLink` | main.py:199 | following another user's link credits that user; following one's own link is ignored |
| `Referral.OnlyFirstArgument` | main.py:153-154 | arguments after the first have no effect |
| `Subscription.FailureIsUnsubscribed` | main.py:61-65 | a failed query, and a restricted, left or kicked status, do not count; member, administrator and creator do |
| `Subscription.SplitChannels` | main.py:85-94 | the loop yields the subscribed and unsubscribed channels in sponsor order, and the flag is true exactly when every answer counts |
| `Subscription.SplitIsPartition` | main.py:88-92 | the two lists together hold every channel exactly once (multiset equality and lengths) |
| `Subscription.SplitPlacesChannel` | main.py:89-92 | channel i is in the subscribed list if its answer counts, otherwise in the unsubscribed list |
| `Subscription.SplitPlacesDistinct` | main.py:89-92 | with distinct channels, channel i is in the subscribed list exactly when its answer counts and in the unsubscribed list exactly when it does not |
| `Subscription.SponsorPlacement` | main.py:88-92 | each of the three distinct channels of SPONSORS (main.py line 12) is listed as subscribed exactly when its own answer counts |
| `Subscription.NoFailuresIffAllPass` | main.py:94 | the unsubscribed list is empty exactly when every answer counts |
| `Tickets.CalculateTickets` | main.py:68-80 | at most 10, and positive exactly when the row exists, is all-subscribed and has at least two referrals |
| `Tickets.NoTicketsWithoutSubscription` | main.py:76-77 | a missing row or an unsubscribed user has 0 tickets |
| `Tickets.NoTicketsBelowThreshold` | main.py:78-79 | a subscribed user with fewer than two referrals has 0 tickets |
| `Tickets.TicketsFromThreshold` | main.py:80 | from two referrals on, tickets are `min(10, ref_count - 1)`, between 1 and 10, and 10 from eleven referrals on |
| `Tickets.TicketsMonotone` | main.py:80 | with the same subscription flag, more referrals never give fewer tickets |
| `Tickets.TicketsIgnoreOtherColumns` | main.py:71 | only `ref_count` and `all_subscribed` are read |
| `Store.FallbackNamesDiffer` | main.py:147-150 | two different users without a handle get different fallback names `user_<id>`, so the fallback never merges two users under one name |
| `Store.InsertUserIfAbsent` | main.py:147-150 | registration leaves an existing user's row and all edges as they were, and otherwise adds a row with `ref_count` 0 and `all_subscribed` 0 |
| `Store.AddReferralEffect` | main.py:157-164 | the edge is added at most once; the referrer's `ref_count` rises by exactly 1 when their row exists; no other row changes and no row is created |
| `Store.RepeatedReferralCountsTwice` | main.py:157-164 | the same accepted payload twice leaves one edge but raises `ref_count` by 2 |
| `Store.SaveStatusEffect` | main.py:97-105 | the upsert creates a row if missing, otherwise changes only `all_subscribed` and `last_checked`, keeping name and `ref_count`; other rows and the edges are unchanged |
| `Store.RejectedPayloadOnlyRegisters` | main.py:152-155 | a rejected payload changes neither the edges nor any existing row |
| `Store.AcceptedPayloadCredits` | main.py:155-164 | an accepted payload adds the edge (referrer, user), with referrer different from the user, and credits an existing referrer by 1 |
| `Store.SuperscriptLosesRegistration` | main.py:145-170 | as written, a new user sending `/start ²` leaves the tables unchanged and ends with no row, where the corrected handler registers them |
| `Store.ApplyExtends` | main.py:145-164 | no single event drops a row or edge, lowers a `ref_count` or renames a user |
| `Store.ApplyConsistent` | main.py:155 | every event keeps "no self-referral, every referred user has a row" |
| `Store.RunExtends` | main.py:161-164 | over any sequence of events `ref_count` never decreases and nothing is deleted |
| `Store.RunConsistent` | main.py:153-160 | over any sequence of events nobody becomes their own referrer |
| `Store.TicketsNeverDropWhileSubscribed` | main.py:76-80 | a user subscribed before and after any sequence of events has at least as many tickets afterwards |
| `Store.RunAsWrittenExtends` | main.py:145-174 | over any sequence of events handled as written, where a crashing `/start` payload commits nothing, `ref_count` never decreases and nothing is deleted |
| `Store.RunAsWrittenConsistent` | main.py:145-174 | over any sequence of events handled as written, starting from a consistent state, nobody becomes their own referrer and every referred user has a row |
| `Store.TicketsNeverDropAsWritten` | main.py:76-80 | with the handlers as written, a user subscribed before and after any sequence of events has at least as many tickets afterwards |
| `Bot.GiveawayBot.constructor` | main.py:22-51 | creating the database yields both tables empty and consistent; a restart keeps the rows and is modelled by continuing with the same object |
| `Bot.GiveawayBot.TicketsOf` | main.py:68-80 | reads the user's row and returns the formula's value, at most 10, positive exactly when subscribed with two referrals |
| `Bot.GiveawayBot.RegisterUser` | main.py:147-150 | the table state after the insert-if-absent |
| `Bot.GiveawayBot.CreditReferral` | main.py:157-164 | the table state after the edge insert and the increment, keeping the invariant |
| `Bot.GiveawayBot.SaveUserStatus` | main.py:97-105 | the table state after the status upsert |
| `Bot.GiveawayBot.CheckStatus` | main.py:83-107 | saves the outcome of the sponsor loop, reports both lists and the flag, and reports the tickets of the saved row |
| `Bot.GiveawayBot.HandleStart` | main.py:138-174 | registration, then the referral credit for a valid payload, then the status check; the result is the event step of the pure model |
| `Bot.GiveawayBot.HandleStartAsWritten` | main.py:138-174 | the handler as written: a payload that passes `isdigit()` but makes `int()` raise leaves both tables unchanged and sends no status; any other payload gives the same step and report as `HandleStart` |

## Findings

| source | as written | input that shows it | evidently intended | confidence | as-written member | corrected member |
|---|---|---|---|---|---|---|
| main.py:155 | `referrer_id.isdigit()` accepts superscript digits, then `int(referrer_id)` raises `ValueError` outside the `try`, so the handler aborts before `conn.commit()` and the new user's row is never saved and no status is sent | a new user sends `/start ²` | a payload that is not a number is ignored like any malformed payload, and the user is registered and shown their status | high for `²`, `³`, `¹` (Python documents them as digits but not decimals); not executed | `Referral.StartPayloadAsWritten` | `Referral.StartPayload` |

`Store.StartWrites`, `Store.Apply` and `Bot.GiveawayBot.HandleStart` use the
corrected guard. `Store.ApplyAsWritten`, `Store.RunAsWritten` and
`Bot.GiveawayBot.HandleStartAsWritten` model the handler as written, where
the crash discards the whole `/start`. The invariants are proved for both
versions. `Store.SuperscriptLosesRegistration` shows what the crash costs.

## Left out

- Telegram calls (`get_chat_member`, `reply_text`, `edit_message_text`, `run_polling`): network I/O. Membership answers are an input sequence, one per sponsor.
- PostgreSQL connections, cursors, commits and `init_db` DDL: replaced by the map and set fields.
- Message text, keyboards and `button_handler` dispatch (main.py:109-135, 177-227): presentation only.
- The displayed referral figure `tickets + 1` (main.py:124): presentation only.
- Async handlers and concurrent execution: each handler runs as one atomic step.
- The `try/except` around the referral SQL (main.py:156-166) and aborted-transaction behaviour: these depend on the database. One consequence is not modelled: a payload above the BIGINT range makes the insert fail inside the `try`.
- Overflow of the 32-bit `ref_count` column: `ref_count` is an unbounded natural number.
- The `tickets` and `joined_date` columns, the referral timestamp, logging prints, the token and the prize text, and `main()`.
- `Referral.StartPayloadAsWritten`: models `str.isdigit` only for characters up to U+00FF (ASCII digits and the superscripts one to three). Python also accepts other Unicode digits, and `int()` parses Unicode decimal digits such as Arabic-Indic ones. The model treats every character above U+00FF as a non-digit.
- `Referral.StartPayload`: the same restriction applies. A payload of non-ASCII decimal digits, which Python would parse, is ignored here.
- The `all_subscribed` column is an INTEGER. The model stores a boolean because the bot only writes 0 or 1.
- User ids are natural numbers: Telegram user ids are positive.
- `Bot.GiveawayBot.HandleStart`: follows the corrected payload check, so on `/start ²` it registers the user and reports, where the source aborts. `Bot.GiveawayBot.HandleStartAsWritten` is the handler as written.
