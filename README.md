# Ripple push notifier: subscription registry and transaction dispatcher

This project models the part of the Ripple-to-Google-Glass notifier that holds state and makes decisions:

- **The registry.** `Notifier.subscriptions` maps a ledger address to the set of timeline access tokens subscribed to it.
- **The dispatcher.** For every ledger transaction it calls `notifyTransaction` once per token of each affected account. A timeline item is handed off only for a successful `Payment` whose `Destination` is that account.
- **Registry bookkeeping in app.js.** At startup every stored row with an address is replayed into the registry. `POST /settings/address` moves a token from its stored address to a new one. The OAuth callback stores a new token with an empty address.

## Files

- `notifier.dfy`, module `Notifier`: models notifier.js.
  - `WithSubscription` and `WithoutSubscription` are registry updates written as pure functions. Their contracts describe the new map as a set of (address, token) pairs, plus its key set.
  - `NotifyTransaction` is the classification; it returns an `Option<Handoff>`.
  - The class `Notifier` holds the `subscriptions` map. It has methods `Subscribe`, `Unsubscribe` and `HandleTransaction`, plus `NotifyAccount`, which is the inner per-account loop.
  - `HandleTransaction` returns the sequence of `notifyTransaction(token, account)` calls it made and the items those calls handed off. It also returns a ghost split of the calls into one block per affected account.
  - `FanOutOf` says what a correct fan-out is. `FanOutDeliveries` proves what any such fan-out delivers. A token gets an item exactly when the transaction succeeded, is a Payment, its destination is among the affected accounts, and the token is subscribed to that destination. The item is the "You received …" item.
- `app.dfy`, module `App`: models app.js over an abstract token table (`map<token, address>`).
  - `Replayed` is the startup scan over the rows the database delivers. A row may arrive as an error.
  - `SetAddress` is the `/settings/address` handler and `Signup` is the OAuth callback's insert. Both are state transitions on the registry and the table together.
  - The class `Server` holds a `Notifier` and the table. Its methods are proved equal to these functions.
  - `Consistent` says that the registry holds exactly the table's pairs with a non-empty address. This is proved after replay of a scan that lists the table. Rebinding to a non-empty address preserves it, and so does signing up a token that is not yet stored.

The model keeps the code's own scope:
- notifier.js builds an item only for a received payment (notifier.js:62-72); nothing is sent to the payer.
- It has one delivery channel, the Glass timeline (notifier.js:76-102).
- A registry entry is a set of tokens (notifier.js:39-45).

## Inputs taken as given

- The list of affected accounts (`msg.mmeta.getAffectedAccounts()`) is a field of `Transaction`.
- The amount's human-readable string and currency code are two opaque strings in `Transaction`. They come from `Amount.from_json(...).to_human()` and `.currency().to_json()`.
- Address validation and normalisation (`UInt160.from_json`, `is_valid`, `to_json`) is an `Option<Address>` argument. `None` means validation failed.
- The access token of the OAuth callback is an `Option<Token>` argument. `None` means `getToken` failed.
- The rows of the startup `db.each` scan are a `seq<RowResult>` argument. `Lists` relates them to the table.

## Model

| member | source | states |
|---|---|---|
| `Notifier.WithSubscription` | notifier.js:39-45 | after subscribe(a, t), t is subscribed to a; the subscribed pairs are the old ones plus (a, t); an entry for a exists afterwards and no other key is added |
| `Notifier.WithoutSubscription` | notifier.js:47-51 | after unsubscribe(a, t), t is not subscribed to a; every other pair is kept; the key set is unchanged, so the possibly empty entry for a stays; with no entry for a the registry is unchanged |
| `Notifier.SubscribeExisting` | notifier.js:39-45 | subscribing a pair that is already present changes nothing |
| `Notifier.SubscribeIdempotent` | notifier.js:39-45 | a second identical subscribe leaves the state exactly as the first left it |
| `Notifier.SubscribeFrame` | notifier.js:39-45 | subscribe leaves every other address's token set unchanged, and every other token under the same address |
| `Notifier.UnsubscribeAbsent` | notifier.js:47-51 | unsubscribing an unknown address, or an unknown token of a known address, leaves the registry identical |
| `Notifier.NotifyTransaction` | notifier.js:53-74 | nothing is produced unless engine_result is tesSUCCESS; an item is produced iff the type is Payment and Destination equals the address; it goes to the given token, with text "You received " + human + " " + currency and the single menu item DELETE |
| `Notifier.NotCreditedGivesNothing` | notifier.js:60-70 | a successful transaction that is not a Payment, or a Payment whose destination is another address (the address is only the source, say), produces no item |
| `Notifier.DeliveriesAppend` | notifier.js:28-37 | the items produced by two consecutive runs of calls are those of the first run followed by those of the second |
| `Notifier.DeliveriesMembership` | notifier.js:30-34 | an item is handed off exactly when one of the calls made produces it |
| `Notifier.DroppedTransactionDeliversNothing` | notifier.js:55-63 | a failed transaction, or one that is not a Payment, hands off nothing, whatever the subscriptions and the affected accounts |
| `Notifier.FanOutDeliveries` | notifier.js:28-74 | for any fan-out of a transaction, an item is handed off to token t iff the transaction is a successful Payment whose destination is among the affected accounts and has t subscribed, and the item is the received-payment item |
| `Notifier.AccountBlockSize` | notifier.js:32-34 | the calls made for one account, listing each of its calls once, are exactly as many as the tokens subscribed to that account |
| `Notifier.SingleSubscriptionFanOut` | notifier.js:28-37 | with one token subscribed to one address a, a transaction affecting another address and then a makes exactly one call, to that token for a |
| `Notifier.PaymentToAliceScenario` | notifier.js:28-74 | with U1 subscribed to rAlice, a successful 10 USD Payment from rBob to rAlice affecting both hands exactly one item to U1, with text "You received 10 USD" |
| `Notifier.Notifier.constructor` | notifier.js:11 | a new notifier starts with an empty registry |
| `Notifier.Notifier.Subscribe` | notifier.js:39-45 | the new registry is WithSubscription of the old |
| `Notifier.Notifier.Unsubscribe` | notifier.js:47-51 | the new registry is WithoutSubscription of the old |
| `Notifier.Notifier.NotifyAccount` | notifier.js:31-35 | for one affected account: one call per subscribed token, each token exactly once, as many calls as tokens; no call when the account has no entry; the items handed off are those the calls produce |
| `Notifier.Notifier.HandleTransaction` | notifier.js:28-37 | the calls split into one block per affected account, in list order; each block makes one call per token of that account; the items handed off are those the calls produce, in call order |
| `App.ReplayRow` | app.js:38-46 | the row callback: a row delivered with an error, or with an empty address, leaves the registry unchanged; any other row adds exactly its (address, token) pair |
| `App.Replayed` | app.js:37-47 | after the scan has called the row callback on every row in order, the registry has an entry for every old key and for every non-empty address of a row delivered without error, and no other |
| `App.ReplayMembership` | app.js:37-47 | after the startup scan, (a, t) is subscribed iff it was before or some row delivered without error carries it with a non-empty address; rows with an error or an empty address subscribe nothing |
| `App.ReplayTable` | app.js:37-47 | replaying a scan of the table into a fresh notifier leaves the registry holding exactly the table's (address, token) pairs with a non-empty address |
| `App.SetAddress` | app.js:84-104 | an address that fails validation throws "Invalid address!" before any lookup and changes nothing; an unknown token answers 500 "Unknown token" and changes nothing; a known token succeeds |
| `App.RebindMoves` | app.js:98-101 | a rebind of a known token leaves it subscribed under the new address; it is no longer subscribed under the old address when that differs; the table maps the token to the new address |
| `App.RebindFrame` | app.js:98-101 | a rebind leaves every other token's subscriptions, and the token's own subscriptions under unrelated addresses, unchanged |
| `App.FirstRebind` | app.js:98-99 | the first rebind of a token stored with address "" has subscribing the new pair as its only registry change, provided nothing is subscribed to "" under that token |
| `App.RebindKeepsConsistent` | app.js:92-104 | if registry and table agree before a request with a non-empty new address (or a failed validation), they agree after it |
| `App.Signup` | app.js:109-116 | a granted token is stored with an empty address and the registry is untouched; a failed token exchange stores nothing |
| `App.SignupKeepsConsistent` | app.js:114-115 | storing a new token with an empty address keeps registry and table in agreement |
| `App.SignedUpNotReplayed` | app.js:114-115 | a token just stored with an empty address is subscribed to no address by a replay of the table |
| `App.Server.constructor` | app.js:35-47 | startup creates a fresh notifier and replays the scanned rows into it; when the rows list the table, registry and table agree |
| `App.Server.Replay` | app.js:37-47 | the row loop leaves the registry equal to Replayed of the old registry and the rows |
| `App.Server.PostAddress` | app.js:84-104 | the unsubscribe, subscribe and row update leave registry, table and response equal to SetAddress, and keep them in agreement for a non-empty new address |
| `App.Server.OAuthCallback` | app.js:107-121 | table and registry become Signup of the old state; agreement is kept for a token not yet stored |

## Left out

- The ripple-lib `Remote` connection and its connect/disconnect handlers (notifier.js:7-26). They only log.
- `notifyTimelineItem` (notifier.js:76-102) is Mirror API discovery, OAuth credentials and a network call. The model stops at "an item is handed off for this token" (`Handoff`).
- Notifier.Notifier.HandleTransaction: does not fix the order of tokens within one address. JavaScript's `Object.keys` gives insertion order; the model's token set has no order. The method promises each account's calls in some order, each token exactly once. The order of accounts is modelled.
- JavaScript object-key quirks. Addresses or tokens such as `__proto__` or `constructor` clash with `Object.prototype`. Addresses reach the registry only after validation or from stored rows.
- The SQL table has no uniqueness constraint on `token`. A token granted twice gives two rows in SQL; the map model overwrites the address with "". A NULL address from the database is not modelled either (addresses are strings, "" being the falsy one).
- A lookup error of `db.get` in `/settings/address` behaves like an unknown token in the source. The model has no separate lookup error.
- Express routing, rendering, cookies, the OAuth redirect, the SQL text and engine, `console.log` output, and the asynchronous ordering of database and HTTP callbacks. Each handler is one atomic step.
- public/scripts/manage.js, browser code that posts to endpoints this server does not have.
