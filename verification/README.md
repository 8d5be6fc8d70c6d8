# InsomniOwl purchase entitlements in Dafny

A model of the purchase-entitlement logic of the InsomniOwl in-app purchase
sample (`OwlProducts`): how a completed purchase is dispatched over the
consumable, non-consumable and non-renewing identifier sets; how the local
subscription expiration is merged with the one stored in the user's remote
record; how the paid-up state is derived from credits and days left and
mirrored into the random-owl product; and how a product's image name is taken
from its identifier.

Everything is a pure function over an immutable `State`
(`purchased`, `credits`, `expiration`, `flags`, `notifications`). The current
time `now` is a parameter; dates are integers (seconds). The remote lookup is a
`Fetch` value: no signed-in user, a failed lookup, or the record with its
optional expiration. The date written back to the record is the `saved` field of
a purchase's `Outcome`. Calendar month addition is a parameter
`addMonths: (int, nat) -> int`; `Dates.Advances` states the one property the
proofs rely on (adding a positive number of months moves a date later).

Files, one module each:
- `options.dfy` — `Option`
- `text.dfy` — substring search and splitting on a separator
- `dates.dfy` — whole-day differences and the month-addition property
- `catalog.dfy` — the product identifiers, purchase classification, resource names
- `entitlement.dfy` — the state, the expiration merge and sync, the random-owl mirror, the paid-up check
- `purchase.dfy` — the purchase handler and the monthly-subscription extension
- `scenarios.dfy` — concrete scenarios

## Behaviour of the code worth noting

- The identifier sets overlap: the random-owl identifier is both consumable
  and non-consumable, and both subscription identifiers are also
  non-consumable. The order of the tests in `handlePurchase` decides which
  effect applies (`Catalog.OverlapResolvedByOrder`,
  `Purchase.ConsumableWinsOverlap`, `Purchase.SubscriptionNotRecordedAsPurchase`).
- Signing out only empties the purchased set; credits, the expiration and the
  stored flags stay (`Entitlement.ClearProducts`, `Scenarios.SignOutKeepsBalances`).
- The paid-up check counts whole days left, while the sync compares the
  expiration with now. In the last day of a subscription the sync marks the
  random-owl product owned and the paid-up check answers false
  (`Entitlement.PaidUpWithinEntitled`, `Scenarios.LastDayDisagreement`).
- With no signed-in user the sync returns before calling its completion, so a
  subscription purchase then changes nothing, not even the notification count
  (`Scenarios.SubscriptionWithoutUserIgnored`).
- The extension is added to the merged expiration even when it lies in the
  past (given the `UserSettings` assumption under "## Left out"); the product is still marked owned until the next paid-up check
  (`Scenarios.LapsedExtensionStillLapsed`).

## Model

| member | source | states |
|---|---|---|
| Text.Contains | InsomniOwl/Classes/OwlProducts.swift:71-73 | The substring test holds exactly when the needle occurs at some index of the identifier. |
| Text.Components | InsomniOwl/Classes/OwlProducts.swift:58 | Splitting on "." yields at least one piece, no piece contains ".", and joining the pieces with "." gives back the identifier. |
| Text.LastComponentIsTail | InsomniOwl/Classes/OwlProducts.swift:58 | The last piece is the separator-free suffix that is either the whole identifier or preceded by ".". |
| Text.TailAfterLastUnique | InsomniOwl/Classes/OwlProducts.swift:58 | There is only one such suffix, so the last piece is fully determined by the identifier. |
| Catalog.DurationMarkers | InsomniOwl/Classes/OwlProducts.swift:71-73 | Among the non-renewing identifiers, "3months" marks exactly the three-month one and "6months" exactly the six-month one. |
| Catalog.Classify | InsomniOwl/Classes/OwlProducts.swift:65-81 | The ordered tests send the random-owl identifier to consumable, the two subscription identifiers to three and six months, the two owl identifiers to non-consumable, and every identifier outside the store's sets to unrecognized. |
| Catalog.OverlapResolvedByOrder | InsomniOwl/Classes/OwlProducts.swift:30-40 | The sets overlap (random owls in consumable and non-consumable, subscriptions in non-renewing and non-consumable), yet each of those identifiers gets the category of the first test that matches. |
| Catalog.ResourceName | InsomniOwl/Classes/OwlProducts.swift:57-59 | The resource name is never absent and is the text after the last "." of the identifier. |
| Catalog.ResourceNameOfCouchOwl | InsomniOwl/Classes/OwlProducts.swift:57-59 | The couch-owl identifier's resource name is "CouchOwl". |
| Dates.DaysBetween | InsomniOwl/Classes/OwlProducts.swift:95 | The whole-day difference is positive exactly when at least a day separates the dates, negative exactly when the order is reversed by at least a day, and brackets the difference to within one day, rounding toward zero. |
| Entitlement.Merge | InsomniOwl/Classes/OwlProducts.swift:137-146 | The merge keeps local when remote is absent, takes remote when only it is present, takes remote only when strictly later, keeps local on ties, and is no earlier than either present input. |
| Entitlement.MergeIsLatest | InsomniOwl/Classes/OwlProducts.swift:136-146 | The merge is the latest present date: absent only when both are, one of the inputs, and no earlier than either. |
| Entitlement.MergeCommutes | InsomniOwl/Classes/OwlProducts.swift:142-146 | Swapping local and remote does not change the merge, so the tie-break is unobservable on dates. |
| Entitlement.MergeIdempotent | InsomniOwl/Classes/OwlProducts.swift:137-146 | Merging the same remote date a second time changes nothing. |
| Entitlement.SetRandomProduct | InsomniOwl/Classes/OwlProducts.swift:83-91 | The random-owl product is purchased exactly when the argument is true, its flag equals the argument, and no other purchased identifier, flag, credit or date changes. |
| Entitlement.SetRandomProductIdempotent | InsomniOwl/Classes/OwlProducts.swift:83-91 | Setting the same value twice is the same as setting it once. |
| Entitlement.SetRandomProductLastWins | InsomniOwl/Classes/OwlProducts.swift:83-91 | Of two successive settings only the second one shows. |
| Entitlement.ClearProducts | InsomniOwl/Classes/OwlProducts.swift:61-63 | The purchased set becomes empty; credits, expiration, flags and notifications are unchanged. |
| Entitlement.DaysRemaining | InsomniOwl/Classes/OwlProducts.swift:93-98 | Days left are zero without an expiration, otherwise the whole-day difference from now to the expiration, so positive exactly when at least a whole day remains. |
| Entitlement.PaidUp | InsomniOwl/Classes/OwlProducts.swift:110-119 | The verdict is true exactly when days remain or credits are positive; afterwards the random-owl product is purchased and flagged exactly when the verdict is true; other purchases, other flags, credits, expiration and notifications are unchanged. |
| Entitlement.PaidUpWithinEntitled | InsomniOwl/Classes/OwlProducts.swift:110-116 | A paid-up state has credits or a future expiration; a state with either that is not paid up has no credits and less than a day left. |
| Entitlement.PaidUpIdempotent | InsomniOwl/Classes/OwlProducts.swift:110-119 | Checking twice gives the same verdict and the same state as checking once. |
| Entitlement.Sync | InsomniOwl/Classes/OwlProducts.swift:121-160 | Without a user the sync is abandoned; otherwise a merged date is stored, the random-owl product is marked owned when it is strictly after now and left alone otherwise, other purchases, other flags and credits are untouched, and the completion gets a record exactly when one was fetched. |
| Entitlement.AfterSync | InsomniOwl/Classes/OwlProducts.swift:124-158 | Whether the sync is abandoned or completes, credits and notifications stay, no purchased identifier is removed, and no flag other than the random-owl one is added. |
| Entitlement.SyncNeverRevokes | InsomniOwl/Classes/OwlProducts.swift:148-156 | A sync never removes a purchased identifier nor turns a true random-owl flag false. |
| Entitlement.SyncIdempotent | InsomniOwl/Classes/OwlProducts.swift:137-150 | A second sync of the stored date against the same remote record leaves the expiration as the first left it. |
| Entitlement.SyncStoresLatest | InsomniOwl/Classes/OwlProducts.swift:137-150 | With a fetched record the stored expiration becomes the latest of the local and remote dates. |
| Purchase.ExtendExpiration | InsomniOwl/Classes/OwlProducts.swift:169 | The expiration becomes the stored one plus the months (from now when none is stored); nothing else changes. |
| Purchase.HandleMonthlySubscription | InsomniOwl/Classes/OwlProducts.swift:162-179 | Without a user nothing happens; otherwise the expiration becomes the merged date plus the months, the random-owl product is owned and flagged, other purchases, flags and credits stay, one notification is posted, and the new date is written back exactly when a record was fetched. |
| Purchase.HandlePurchase | InsomniOwl/Classes/OwlProducts.swift:65-81 | Random owls add five credits, mark the product owned and set its flag to true; a subscription identifier runs the three- or six-month extension; an owl identifier is added to purchased with its flag set; anything else leaves state and remote untouched. |
| Purchase.SubscriptionDispatch | InsomniOwl/Classes/OwlProducts.swift:71-74 | Every non-renewing identifier is classified as a subscription, and buying it is exactly the monthly extension by the classified number of months. |
| Purchase.MonthlyKeepsOtherIdentifiers | InsomniOwl/Classes/OwlProducts.swift:162-179 | A subscription purchase leaves any identifier other than random owls as it was, both in purchased and among the flags, and leaves credits alone. |
| Purchase.ConsumableWinsOverlap | InsomniOwl/Classes/OwlProducts.swift:66-70 | Although random owls is also non-consumable, buying it adds five credits and only sets its flag to true. |
| Purchase.SubscriptionNotRecordedAsPurchase | InsomniOwl/Classes/OwlProducts.swift:71-79 | Although listed as non-consumable, a subscription identifier is never added to purchased, its flag is untouched, and credits stay. |
| Purchase.ExtensionCountsFromMerge | InsomniOwl/Classes/OwlProducts.swift:165-174 | With an advancing month addition, the new expiration is later than both the local and the remote date (later than now when neither exists) and is the date written back. |
| Purchase.CreditsOnlyFromConsumable | InsomniOwl/Classes/OwlProducts.swift:65-81 | Credits grow by five on the consumable and are unchanged by every other purchase. |
| Scenarios.BuyRandomOwlsFromNothing | InsomniOwl/Classes/OwlProducts.swift:66-70 | From an empty state, buying random owls gives five credits, one notification, and a paid-up verdict. |
| Scenarios.LaterLocalDateKept | InsomniOwl/Classes/OwlProducts.swift:142-146 | A local 2024-06-01 wins over a remote 2024-05-01. |
| Scenarios.SignOutKeepsBalances | InsomniOwl/ViewControllers/MasterViewController.swift:72-76 | Signing out after buying random owls empties purchased but keeps the five credits. |
| Scenarios.SubscriptionWithoutUserIgnored | InsomniOwl/Classes/OwlProducts.swift:124-128 | Buying a subscription with no signed-in user leaves the state unchanged and writes nothing. |
| Scenarios.LapsedExtensionStillLapsed | InsomniOwl/Classes/OwlProducts.swift:165-170 | Three months added to a date 200 days old still lie in the past, yet the product is marked owned until the next paid-up check removes it. |
| Scenarios.LastDayDisagreement | InsomniOwl/Classes/OwlProducts.swift:153-155 | With a stored expiration an hour ahead, syncing it marks the product owned while the paid-up check answers false. |

## Left out

- The table view, product cells, segues, button titles and price formatting: user-interface plumbing.
- Parse transport (`PFUser`, `PFQuery`, `saveInBackground`): the lookup result is the `Fetch` input and the write-back is the `saved` output; a failed save is not modelled.
- `NotificationCenter` posts are counted in `notifications`; the notification name and its observers are not modelled.
- `UserDefaults` persistence is the `flags` map; when it is read back into the purchased set is not modelled.
- `randomImages`, `UIImage` and `getExpiryDateString`: images and date formatting.
- `Entitlement.DaysRemaining`: counts whole days as 86400-second blocks from now, rounding toward zero; daylight-saving and calendar irregularities of the platform calendar are not modelled.
- `Purchase.ExtendExpiration`: calendar month addition (with day-of-month clamping) is the parameter `addMonths`; only `Dates.Advances` is assumed of it, and only in the lemma that needs it.
- `UserSettings` is not part of this model: its credit increase is taken to add the given amount, and its expiration increase to add months to the stored date or to now when none is stored.
- `IAPHelper` is not part of this model: the set of identifiers it is built with is `Catalog.AllProducts`; purchase, restore and transaction handling are left out.
- The order in which overlapping asynchronous syncs complete: a concurrency concern; each sync is modelled as one atomic step.
- Sub-second date precision: dates are whole seconds.
