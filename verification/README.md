# swaply-admin mock engine in Dafny

This project models the data engine behind the swaply-admin moderation
dashboard. It has three parts:

- **`createMockDb`**, the seeded generator. It builds a consistent
  marketplace snapshot in a fixed order: users, products, favourites,
  swap offers, chat threads, messages, the reconciliation of each
  thread's last message, notifications, reports and the per-user settings
  maps.
- **The moderation store.** Each action maps a snapshot to the next one:
  verify, ban and unban a user; change a listing's premium, exchanged or
  hidden state; force an offer's outcome; regenerate the snapshot.
- **The dashboard's read side.** `computeListingStatus` classifies a
  listing and `computeKpis` computes the counters.

Every random draw the generator makes (faker's `number.int`, `boolean`,
`weightedArrayElement`, `arrayElements`, `pick`) is an explicit natural
number. It is reduced into range exactly as the source's distribution
does. A run is therefore a pure function of its draws and of the clock
`now`, both given as parameters. Where the source would throw, the run
returns `Failure(EmptyPool(..))`: a `pick` from an empty list, or
`faker.number.int` with `max < min`. Ids are `Num(n)` or `Str(s)`. Every
lookup the source does through `String(id)` compares their canonical
decimal/string forms (`Ids.Canon`).

The central invariant is `Consistency.Consistent(db, now)`, which says
that everything in a snapshot is linked together:

- user and product ids are unique as strings and written in decimal;
- offer, thread, message, notification and report ids are numbered as
  generated;
- every owner, favourite, offer party, thread participant, message
  sender, notification target and report target exists;
- favourite counts and like counts equal the number of users listing the
  product;
- every accepted or completed offer has a chat thread;
- every thread's last-message summary matches its messages;
- the settings maps are keyed by exactly the user ids.

`MockDb.CreateMockDbConsistent` proves that every successful run yields a
consistent snapshot. The user and product actions keep `Consistent`
itself, with one exception, which is proved: banning the admin. The
offer actions keep only the weaker `Consistency.Linked`. `Linked` drops
exactly the offers' date facts: an offer was never updated and was
created in the last 30 days (`Consistency.ConsistentIffLinkedDated`).
The offer actions stamp `updatedAt := now`, which breaks the first of
these (`StoreLinked.StampBreaksOfferDates`). Forcing an offer to accepted
keeps `Linked` exactly when a thread already covers the offer.

Modules follow the source. `Wrappers`, `Ids`, `Sampling`, `Models`, `Seqs`
and `Lookup` are shared vocabulary. `Username`, `Trust` and `ThreadKeys`
model the helpers of `src/mock/mockDb.ts`. `GenUsers` … `GenSettings` and
`Reconcile` model its stages, and `MockDb` chains them. `Store` models
`src/stores/mockStore.ts`, `StoreLinked` holds its invariant proofs, and
`Kpis` models `src/utils/kpis.ts`.

Four behaviours of the code are easy to get wrong, and the model proves
each of them as the code has it:

- **Premium alternation.** `toggleProductPremium` without a type alternates
  the premium type between `vitrin` and `featured` based on the current
  type. Turning premium off resets the type to `none`, so turning it back
  on always gives `vitrin` (`Store.PremiumOffThenOn`).
- **Banning the admin.** `banUser` demotes whoever it is given to `user`,
  the admin included (`StoreLinked.BanUserKeepsLinked`).
- **The exchanged counter.** It counts exchanged drafts, which
  `computeListingStatus` calls drafts (`Kpis.ExchangedCounterMatchesClassifier`).
- **Forced accepts.** `forceAcceptOffer` opens no chat thread, so the
  generator's promise that every accepted offer has a thread can break
  (`StoreLinked.OrphanBreaksThreads`).

## Model

| member | source | states |
|---|---|---|
| Ids.ParseNatToString | src/stores/mockStore.ts:27 | The decimal rendering `String(n)` of a numeric id reads back as the same number. |
| Ids.NatToStringInjective | src/stores/mockStore.ts:27 | Two numeric ids render to the same string exactly when they are the same number. |
| Ids.CanonOfNum | src/stores/mockStore.ts:31 | `String(a) === String(b)` for numeric ids holds iff `a == b`, and the number `n` matches the string key `"n"`. |
| Ids.PrefixedCounterInjective | src/mock/mockDb.ts:446 | Counter ids such as `t_${n}` are equal exactly when their counters are. |
| Sampling.Between | src/mock/mockDb.ts:362 | `faker.number.int({min, max})` lands in the inclusive range. |
| Sampling.Pick | src/mock/mockDb.ts:112-114 | `pick` returns a member of the (non-empty) list. |
| Sampling.PickIndex | src/mock/mockDb.ts:113 | The index `pick` draws is in bounds. |
| Sampling.WeightedIndex | src/mock/mockDb.ts:256-260 | `weightedArrayElement` selects the entry whose cumulative weight band contains the roll. |
| Sampling.WeightedIndexUnique | src/mock/mockDb.ts:256-260 | A roll inside entry k's band always selects entry k. |
| Sampling.WeightedIndexCount | src/mock/mockDb.ts:256-260 | Out of the total weight, exactly `w[k]` rolls select entry k, so entries are chosen in proportion to their weights. |
| Sampling.SampleIndices | src/mock/mockDb.ts:363 | `arrayElements(candidates, k)` (a partial Fisher–Yates shuffle) yields k distinct in-bounds positions. |
| Sampling.Shuffle | src/mock/mockDb.ts:363 | Each swap pass keeps the length, the distinctness and the bound of the index sequence. |
| Models.DaysAgoWindow | src/mock/mockDb.ts:116-118 | `isoDaysAgo(d)` for a draw `d` of at most `max` days lies in the window from `max` days before `now` up to `now`. |
| Models.DaysAgoMonotone | src/mock/mockDb.ts:116-118 | More days back never gives a later instant. |
| Models.TitleOfInjective | src/mock/mockDb.ts:553-563 | Each notification type has its own title. |
| Username.Fold | src/mock/mockDb.ts:122-128 | Lower-casing and folding Turkish letters maps each character on its own, keeping the length. |
| Username.KeepAllowed | src/mock/mockDb.ts:129 | Stripping `[^a-z0-9.]` leaves only allowed characters and never lengthens. |
| Username.MakeUsername | src/mock/mockDb.ts:120-131 | A username starts with `@`, is at least three characters long, and has only `[a-z0-9.]` after the `@`. |
| Username.UsernameShape | src/mock/mockDb.ts:120-131 | A username is `@` + a base of allowed characters containing the `.` separator + 1 to 3 digits encoding a number ≤ 999. |
| Username.UsernameBaseSplits | src/mock/mockDb.ts:121-129 | Normalising `first.last` is the same as normalising each name and joining them with `.`. |
| Username.BaseShape | src/mock/mockDb.ts:121-129 | The base keeps only `[a-z0-9.]` and contains the `.` between the two names. |
| Username.TurkishLettersFold | src/mock/mockDb.ts:122-128 | An example on fixed letters: ç, ğ, ı/İ/I, ö, ş and ü in either case fold to c, g, i, o, s and u, and the KELVIN SIGN to k. |
| Username.NamePartKeepsAscii | src/mock/mockDb.ts:121-129 | A name already made of `[a-z0-9]` passes through unchanged. |
| Trust.FactorScore | src/mock/mockDb.ts:190-193 | Each factor scores between 0.20 and 1.00, in hundredths. |
| Trust.RoundedMean | src/mock/mockDb.ts:195-197 | The overall score is within half a hundredth of the factors' mean. |
| Trust.RoundedMeanNearest | src/mock/mockDb.ts:195-197 | No other value in hundredths is closer to the mean than the rounded one. |
| Trust.ScoreSumBounds | src/mock/mockDb.ts:195-197 | The factor sum lies between 0.20 and 1.00 times the number of factors. |
| Trust.TrustConsistentUnique | src/mock/mockDb.ts:195-197 | For an odd number of factors (five here), the factors determine the consistent overall score uniquely. |
| Trust.MakeTrustScore | src/mock/mockDb.ts:182-204 | A trust score has the user's id, the five factors in the source's order with max score 1 and scores in [0.20, 1], and a consistent overall score in the same range. |
| ThreadKeys.StrLeTotal | src/mock/mockDb.ts:440 | The string order `sort()` uses is total. |
| ThreadKeys.StrLeAntisymmetric | src/mock/mockDb.ts:440 | The string order `sort()` uses is antisymmetric. |
| ThreadKeys.ThreadKeySymmetric | src/mock/mockDb.ts:440 | The key `[a, b].sort().join('-') + ':' + context` does not depend on the order of the two users. |
| ThreadKeys.ThreadKeyInjective | src/mock/mockDb.ts:440 | For separator-free parts, equal keys mean the same context and the same unordered pair of users. |
| ThreadKeys.DigitsAreSeparatorFree | src/mock/mockDb.ts:440 | A decimal id contains neither `-` nor `:`. |
| GenUsers.GenerateUsers | src/mock/mockDb.ts:251-289 | Users get ids 1..n. The first is the admin, the others take the 92/6/2 weighted role, and nobody has favourites yet. |
| GenUsers.GeneratedUserIdsDistinct | src/mock/mockDb.ts:263 | Generated user ids are unique under `String(..)` and decimal. |
| GenProducts.GenerateProducts | src/mock/mockDb.ts:291-351 | Products get ids 1000.. and an existing owner. Premium products have premium type ≠ none, `isAd` and an expiry 7 (vitrin) or 14 days after `now`; others have none. Status is draft or follows the condition, counters start at 0, and the view count is ≤ 6500. |
| GenProducts.GeneratedProductIdsDistinct | src/mock/mockDb.ts:312 | Generated product ids are unique under `String(..)` and decimal. |
| Ids.NumberedIdsDistinct | src/mock/mockDb.ts:263 | Ids numbered consecutively are distinct under `String(..)` and render as digit strings. |
| GenProducts.NormalizeTag | src/mock/mockDb.ts:355 | A normalised tag starts with `#`: either the tag itself or the tag behind one `#`. |
| GenProducts.NormalizeTagIdempotent | src/mock/mockDb.ts:355 | Normalising twice is normalising once. |
| GenProducts.NormalizeTagAddsOneHash | src/mock/mockDb.ts:355 | A tag without `#` gains exactly one character, and a tag with one is unchanged. |
| GenProducts.NormalizeTags | src/mock/mockDb.ts:353-356 | Only `tags` changes, and it holds the hashtags position by position, each normalised. |
| GenFavorites.Candidates | src/mock/mockDb.ts:361 | Candidates are products the user does not own. |
| GenFavorites.FavoritesFor | src/mock/mockDb.ts:360-364 | A user favourites `min(count, #candidates)` distinct products, none of their own. |
| GenFavorites.FavoritesForFacts | src/mock/mockDb.ts:360-364 | The favourites number at most 60, are distinct, and every one is an existing product whose owner is someone else. |
| GenFavorites.BumpUsersEffect | src/mock/mockDb.ts:365-368 | After the bumps, each product's favourite count grew by the number of favourite entries that match its id under `String(..)`. |
| GenFavorites.FavoritesPass | src/mock/mockDb.ts:358-372 | The pass sets each user's favourites and changes only the products' favourite and like counts. |
| GenFavorites.FavoritesPassOwnership | src/mock/mockDb.ts:358-372 | After the pass, every favourite list is bounded, made of existing products not owned by the user, and well formed. |
| GenFavorites.FavoritesPassCounts | src/mock/mockDb.ts:358-372 | Each product's favourite count is the number of users listing it, and its like count equals its favourite count. |
| MockDb.FavoritesPassOk | src/mock/mockDb.ts:358-372 | Over fresh products with distinct ids, the pass leaves the favourites consistent and the view counts unchanged. |
| GenOffers.Attempt | src/mock/mockDb.ts:386-421 | A kept attempt gets the next id `9000 + kept + 1` and the 55/18/15/10/2 weighted status. |
| GenOffers.AttemptFails | src/mock/mockDb.ts:387-389 | An attempt throws on an empty product list or when nobody but the owner exists, and succeeds otherwise. |
| GenOffers.AttemptYields | src/mock/mockDb.ts:386-402 | An attempt keeps an offer exactly when the draws give two products of different owners. |
| GenOffers.AttemptValid | src/mock/mockDb.ts:386-421 | A kept offer links two existing products of different owners, its initiator owns the offered one, and its dates lie within 30 days before `now`. |
| GenOffers.RunOffers | src/mock/mockDb.ts:385-431 | The retry loop returns at most `count` offers, numbered consecutively from `9000 + kept + 1`. |
| GenOffers.LoopNumbered | src/mock/mockDb.ts:385-431 | For any step that numbers the offer kept after `k` others `9000 + k + 1`, the retry loop returns at most `count` offers, numbered consecutively. |
| GenOffers.LoopLength | src/mock/mockDb.ts:385-431 | For any step whose keeping depends on the draw alone, the loop returns `min(count, draws that keep)` offers. |
| GenOffers.LoopKeepsOnly | src/mock/mockDb.ts:385-431 | Every offer the loop returns is one its step may keep. |
| GenOffers.LoopErrors | src/mock/mockDb.ts:385-431 | When its step throws only on an empty pool, so does the loop. |
| GenOffers.LoopSucceeds | src/mock/mockDb.ts:385-431 | A loop whose step never throws never fails. |
| GenOffers.RunOffersLength | src/mock/mockDb.ts:385-431 | The loop returns `min(count, successful attempts)` offers: a retried attempt (`i -= 1`) adds nothing. |
| GenOffers.RunOffersValid | src/mock/mockDb.ts:385-431 | Every offer the loop returns is valid. |
| GenOffers.RunOffersSucceeds | src/mock/mockDb.ts:385-431 | With products and at least two distinct users, the loop never throws. |
| GenOffers.RunOffersErrors | src/mock/mockDb.ts:385-431 | The loop only ever fails with an empty pool. |
| GenOffers.RunOffersWithoutProducts | src/mock/mockDb.ts:387 | With no products and offers to make, the loop throws on the product pool. |
| GenOffers.GenerateOffers | src/mock/mockDb.ts:374-431 | The offers stage yields `min(count, successes)` valid offers numbered 9001, 9002, …. |
| GenOffers.OfferOwners | src/mock/mockDb.ts:386-411 | In a valid offer the target user owns the target product, the initiator owns the offered one, and the two products differ. |
| GenOffers.OfferFallbackNeverFires | src/mock/mockDb.ts:397-402 | When an attempt succeeds, the offered product's owner is never the target's owner. |
| GenOffers.AcceptedOffers | src/mock/mockDb.ts:423-430 | The accepted-pairs list holds exactly the accepted or completed offers. |
| GenThreads.SeedStep | src/mock/mockDb.ts:437-463 | `addThreadFromPair` only appends, adds at most one thread, records the pair's key, and skips a key already seen. |
| GenThreads.SeedThreads | src/mock/mockDb.ts:465 | After seeding, every accepted pair's key is recorded, with at most one new thread per pair. |
| GenThreads.FillStep | src/mock/mockDb.ts:466-490 | A fill iteration only appends, adds at most one thread, and throws on an empty user list. |
| GenThreads.FillThreads | src/mock/mockDb.ts:466-490 | The fill loop stops at `max(count, existing)` threads or when its draws run out. |
| GenThreads.FillThreadsErrors | src/mock/mockDb.ts:466-490 | The fill loop only fails with an empty pool, and never fails with two distinct users and a product. |
| GenThreads.FillThreadsStarts | src/mock/mockDb.ts:466-490 | Filling from nothing with a positive target makes at least one thread. |
| GenThreads.GenerateThreads | src/mock/mockDb.ts:433-490 | Every accepted offer's pair key ends up among the thread keys, one key per thread. |
| GenThreads.SeedThreadsOk | src/mock/mockDb.ts:437-465 | Seeding from valid offers never throws and keeps every thread well formed with unique keys. |
| GenThreads.FillThreadsOk | src/mock/mockDb.ts:466-490 | Filling keeps every thread well formed with unique keys. |
| GenThreads.SeedKeys | src/mock/mockDb.ts:437-465 | The recorded keys after seeding are the earlier keys plus the pairs' keys, without duplicates. |
| GenThreads.CoverFromKey | src/mock/mockDb.ts:437-441 | A recorded pair key means some thread has the offer's two users (in either order) and its target product. |
| GenThreads.GenerateThreadsOk | src/mock/mockDb.ts:433-490 | The generated threads are well formed, and every accepted offer is covered by a thread. |
| GenThreads.GenerateThreadsCount | src/mock/mockDb.ts:433-490 | There are at least as many threads as distinct accepted pairs and at most `max(count, that number)`. Fewer than `count` only when the fill draws ran out. |
| GenMessages.MakeMessage | src/mock/mockDb.ts:492-517 | A message goes into an existing thread, from one of its participants, with the next `m_` id. It throws when there are no threads. |
| GenMessages.RunMessages | src/mock/mockDb.ts:492-517 | The messages loop makes one message per draw, numbered consecutively, all well formed. |
| GenMessages.GenerateMessages | src/mock/mockDb.ts:492-517 | The messages stage yields `messagesCount` well-formed messages `m_1`, `m_2`, …. |
| GenMessages.GenerateMessagesFails | src/mock/mockDb.ts:496-497 | The stage throws exactly when it must make a message and there are no threads. |
| GenMessages.RunMessagesErrors | src/mock/mockDb.ts:492-517 | The messages loop only fails with an empty pool. |
| GenMessages.MessageIdsDistinct | src/mock/mockDb.ts:504 | Consecutively numbered messages have distinct ids. |
| Reconcile.MessagesOf | src/mock/mockDb.ts:519-525 | A thread's bucket holds exactly the messages whose thread id matches under `String(..)`. |
| Reconcile.InsertByTime | src/mock/mockDb.ts:528 | Inserting adds exactly one message. |
| Reconcile.InsertByTimeSorted | src/mock/mockDb.ts:528 | Inserting into a time-sorted list keeps it sorted. |
| Reconcile.SortByTime | src/mock/mockDb.ts:528 | Sorting by time permutes the bucket into time order. |
| Reconcile.LatestIndex | src/mock/mockDb.ts:529 | The position of a message with the greatest time, with every later message strictly earlier. |
| Reconcile.Latest | src/mock/mockDb.ts:529 | The last message is one with the greatest time: the last such in bucket order, as the stable sort places it. |
| Reconcile.LastOfSortIsLatest | src/mock/mockDb.ts:528-529 | The last element of the sorted bucket is that latest message. |
| Reconcile.ReconcileThread | src/mock/mockDb.ts:527-534 | Reconciling keeps the thread's id, participants and product, and leaves a thread without messages untouched. |
| Reconcile.ReconcileThreadCorrect | src/mock/mockDb.ts:527-534 | A thread with messages takes the latest one's text and time, and its unread count is the number of unread messages. |
| Reconcile.ReconcileThreads | src/mock/mockDb.ts:526-535 | Every thread is reconciled against its own bucket, in place. |
| Reconcile.ReconcileThreadsCorrect | src/mock/mockDb.ts:519-535 | After the pass every thread's summary matches its messages. |
| GenNotifications.StepFacts | src/mock/mockDb.ts:541-571 | A notification throws only on an empty user or product pool. Otherwise it gets the next `n_` id and the drawn type, and changes nothing but view counts. |
| GenNotifications.StepOk | src/mock/mockDb.ts:541-571 | A notification targets an existing user and, if any, an existing product, with a time within 10 days before `now`. |
| GenNotifications.RunNotifications | src/mock/mockDb.ts:541-571 | The loop makes one consecutively numbered notification per draw and changes only view counts. |
| GenNotifications.GenerateNotifications | src/mock/mockDb.ts:537-573 | The stage yields `notificationsCount` notifications `n_1`, `n_2`, … and touches only view counts. |
| GenNotifications.RunNotificationsErrors | src/mock/mockDb.ts:541-571 | The loop only fails with an empty pool, and never when there are users and products. |
| GenNotifications.RunNotificationsOk | src/mock/mockDb.ts:541-571 | Every generated notification is well formed. |
| GenNotifications.ViewCounts | src/mock/mockDb.ts:546-548 | Each product's view count grew by exactly the number of `product_viewed` notifications about it. |
| GenReports.MakeReportFacts | src/mock/mockDb.ts:579-605 | A report throws only on an empty pool and never with two distinct users and a product. It gets the next id and the drawn category, and is well formed. |
| GenReports.RunReports | src/mock/mockDb.ts:575-606 | The loop makes one consecutively numbered, well-formed report per draw. |
| GenReports.GenerateReports | src/mock/mockDb.ts:575-606 | The stage yields `reportsCount` well-formed reports numbered from 1. |
| GenReports.RunReportsSucceeds | src/mock/mockDb.ts:575-606 | With two distinct users and a product, the reports stage never throws. |
| GenReports.RunReportsErrors | src/mock/mockDb.ts:575-606 | The reports stage only fails with an empty pool. |
| GenSettings.MakeLocationSettings | src/mock/mockDb.ts:154-180 | Location settings grant permission, use the user's city and one of the radii 5/10/20/50 km. |
| GenSettings.BuildSettings | src/mock/mockDb.ts:607-614 | The three settings maps are keyed by exactly the users' `String(id)`s. |
| GenSettings.SettingsOfUser | src/mock/mockDb.ts:607-614 | Each user's entries are the default notification settings, their location settings and their trust score. |
| Lookup.OtherUsers | src/mock/mockDb.ts:468 | `users.filter(u => u.id !== id)` keeps only other users. |
| Lookup.OtherUsersNonEmpty | src/mock/mockDb.ts:468 | With two distinct users there is always another user to pick. |
| Lookup.OwnedBy | src/mock/mockDb.ts:390 | The owner filter keeps exactly the owner's products. |
| Lookup.FindByCanon | src/mock/mockDb.ts:444-445 | `users.find` and `products.find` by `String(id)` return a member with that id string, or report that none has it. |
| Lookup.FindByCanonMember | src/mock/mockDb.ts:444-445 | With ids unique as strings, looking up a member's own id finds that member. |
| Lookup.LastProductIndexByCanon | src/mock/mockDb.ts:359 | The `productById` map resolves a key to the last product with that `String(id)`. |
| Lookup.FindThread | src/mock/mockDb.ts:498 | A message's thread lookup returns a matching thread, or reports that none exists. |
| MockDb.ConfigOf | src/mock/mockDb.ts:229-248 | With no options every setting takes its default (seed 20260109; 80 users, 400 products, 300 offers, 180 threads, 4000 messages, 1200 notifications, 120 reports), and every option that is given (seed and each count) is used as given. |
| MockDb.RunStages | src/mock/mockDb.ts:249-614 | A successful run is the stages chained in the source's order, each fed by the collections the earlier ones built. |
| MockDb.CreateMockDb | src/mock/mockDb.ts:616-636 | The snapshot records the seed it was generated from. |
| MockDb.EarlyOk | src/mock/mockDb.ts:251-372 | After users, products, tags and favourites, the users, products and favourite counts are consistent. |
| MockDb.OffersStageOk | src/mock/mockDb.ts:374-431 | The generated offers are consistent with the final products, even after the view-count bumps. |
| MockDb.ThreadsStageOk | src/mock/mockDb.ts:433-490 | The threads are numbered `t_1..`, well formed, unique by key, and cover every accepted offer. |
| MockDb.MessagesStageOk | src/mock/mockDb.ts:492-517 | The messages fit the reconciled threads. |
| MockDb.SummariesStageOk | src/mock/mockDb.ts:519-535 | Every thread's summary matches its messages. |
| MockDb.NotificationsStageOk | src/mock/mockDb.ts:537-573 | The notifications are consistent with the final products. |
| MockDb.SettingsStageOk | src/mock/mockDb.ts:607-614 | The settings maps are consistent with the users. |
| MockDb.CreateMockDbConsistent | src/mock/mockDb.ts:229-636 | Every snapshot `createMockDb` returns is consistent. |
| Store.UpdateUser | src/stores/mockStore.ts:26-28 | Users whose `String(id)` matches get the patch, the others are unchanged, and an unknown id changes nothing. |
| Store.ToggleUserVerified | src/stores/mockStore.ts:43-51 | Only `users` changes: matching users have `verified` flipped, the others are untouched. |
| Store.ToggleUserVerifiedTwice | src/stores/mockStore.ts:43-51 | Toggling verification twice restores the snapshot. |
| Store.BanUser | src/stores/mockStore.ts:53-59 | Only `users` changes: matching users become role `user` and offline. |
| Store.BanUserIdempotent | src/stores/mockStore.ts:53-59 | Banning twice is banning once. |
| Store.UnbanUser | src/stores/mockStore.ts:61-67 | Only `users` changes: matching users come online and every role is kept. |
| Store.BanThenUnban | src/stores/mockStore.ts:53-67 | After a ban then an unban the user is online and stays a plain member. |
| Store.UpdateProduct | src/stores/mockStore.ts:30-32 | Products whose `String(id)` matches get the patch, the others are unchanged, and an unknown id changes nothing. |
| Store.FindProduct | src/stores/mockStore.ts:71 | The lookup returns the first product whose `String(id)` matches, and none exactly when no product matches. |
| Store.FindProductAt | src/stores/mockStore.ts:71 | With unique ids, looking up product k's own id finds position k. |
| Store.ToggleProductPremium | src/stores/mockStore.ts:69-88 | An unknown id returns the state unchanged. Otherwise only matching products change, and only in the premium fields, which stay consistent (`isAd` equals premium, type none exactly when off, expiry exactly when on). |
| Store.PremiumWithType | src/stores/mockStore.ts:74-84 | An explicit type turns premium on unless it is `none`, and sets that type. An existing expiry is kept, a missing one becomes `now` + 7 days. |
| Store.PremiumWithoutType | src/stores/mockStore.ts:74-84 | Without a type, premium flips. Turning on gives `featured` after `vitrin` and `vitrin` otherwise. |
| Store.PremiumOffThenOn | src/stores/mockStore.ts:74-84 | Turning premium off then on always yields `vitrin` with a fresh expiry 7 days after the second clock. |
| Store.PremiumOnThenOff | src/stores/mockStore.ts:74-84 | Turning premium on then off leaves a consistent non-premium product. |
| Store.MarkProductExchanged | src/stores/mockStore.ts:90-96 | Only `products` changes: matching products get `isExchanged` set to the argument. |
| Store.ToggleProductHidden | src/stores/mockStore.ts:98-108 | An unknown id changes nothing. Otherwise every matching product gets `hidden` = not the first match's `hidden`, a missing flag counting as false. |
| Store.ToggleProductHiddenTwice | src/stores/mockStore.ts:98-108 | Hiding twice restores the flag's value, with a missing flag made explicit as `false`. |
| Store.UpdateOffer | src/stores/mockStore.ts:34-36 | Matching offers get the patch and `updatedAt` = `now`, and the others are unchanged. |
| Store.ForceCancelOffer | src/stores/mockStore.ts:110-116 | Only `offers` changes: matching offers become `cancelled`, stamped `now`. |
| Store.ForceRejectOffer | src/stores/mockStore.ts:118-124 | Only `offers` changes: matching offers become `rejected`, stamped `now`. |
| Store.ForceAcceptOffer | src/stores/mockStore.ts:126-132 | Only `offers` changes: matching offers become `accepted`, stamped `now`. |
| Store.Regenerate | src/stores/mockStore.ts:41 | A successful regeneration yields a consistent snapshot carrying the default seed. |
| StoreLinked.UsersFrameLinked | src/stores/mockStore.ts:43-67 | Changing only users' role, online status and verification keeps the snapshot linked while the first user stays admin. |
| StoreLinked.ToggleUserVerifiedKeepsLinked | src/stores/mockStore.ts:43-51 | Toggling verification keeps a linked snapshot linked. |
| StoreLinked.UnbanUserKeepsLinked | src/stores/mockStore.ts:61-67 | Unbanning keeps a linked snapshot linked. |
| StoreLinked.BanUserKeepsLinked | src/stores/mockStore.ts:53-59 | A ban keeps a linked snapshot linked exactly when it does not hit the first user, the admin. |
| StoreLinked.ProductsFrameLinked | src/stores/mockStore.ts:69-108 | Changing only products' premium, exchanged and hidden fields, keeping premium consistent, keeps the snapshot linked. |
| StoreLinked.ToggleProductPremiumKeepsLinked | src/stores/mockStore.ts:69-88 | A premium toggle, with or without a type, keeps a linked snapshot linked. |
| StoreLinked.MarkProductExchangedKeepsLinked | src/stores/mockStore.ts:90-96 | Marking exchanged keeps a linked snapshot linked. |
| StoreLinked.ToggleProductHiddenKeepsLinked | src/stores/mockStore.ts:98-108 | Toggling hidden keeps a linked snapshot linked. |
| Consistency.ConsistentIffLinkedDated | src/mock/mockDb.ts:405-416 | A snapshot is consistent exactly when it is linked and every offer is as generated: `updatedAt` equal to `createdAt`, created within the last 30 days. |
| StoreLinked.ToggleUserVerifiedKeepsConsistent | src/stores/mockStore.ts:43-51 | Toggling verification keeps a consistent snapshot consistent. |
| StoreLinked.UnbanUserKeepsConsistent | src/stores/mockStore.ts:61-67 | Unbanning keeps a consistent snapshot consistent. |
| StoreLinked.BanUserKeepsConsistent | src/stores/mockStore.ts:53-59 | A ban keeps a consistent snapshot consistent exactly when it does not hit the first user, the admin. |
| StoreLinked.ToggleProductPremiumKeepsConsistent | src/stores/mockStore.ts:69-88 | A premium toggle at any clock keeps a consistent snapshot consistent. |
| StoreLinked.MarkProductExchangedKeepsConsistent | src/stores/mockStore.ts:90-96 | Marking exchanged keeps a consistent snapshot consistent. |
| StoreLinked.ToggleProductHiddenKeepsConsistent | src/stores/mockStore.ts:98-108 | Toggling hidden keeps a consistent snapshot consistent. |
| StoreLinked.StampBreaksOfferDates | src/stores/mockStore.ts:34-36 | Stamping `updatedAt` = `now` on an offer created at another instant breaks the generated offers' date facts. |
| StoreLinked.OffersFrameLinked | src/stores/mockStore.ts:110-132 | Changing only offers' status and time stamp keeps the snapshot linked when every newly accepted or completed offer already has a thread. |
| StoreLinked.ForceCancelOfferKeepsLinked | src/stores/mockStore.ts:110-116 | Forcing a cancel keeps a linked snapshot linked. |
| StoreLinked.ForceRejectOfferKeepsLinked | src/stores/mockStore.ts:118-124 | Forcing a reject keeps a linked snapshot linked. |
| StoreLinked.OrphanBreaksThreads | src/stores/mockStore.ts:126-132 | An offer made accepted that no thread covers breaks the thread invariant. |
| StoreLinked.ForceAcceptOfferKeepsLinked | src/stores/mockStore.ts:126-132 | A forced accept keeps a linked snapshot linked exactly when every matching offer already has a thread. |
| Kpis.ComputeListingStatus | src/utils/kpis.ts:3-7 | A listing is `draft` iff its status is draft, `exchanged` iff published and exchanged, and `active` iff published and not exchanged. |
| Kpis.ComputeKpis | src/utils/kpis.ts:9-41 | Every counter is at most its collection's size, and active listings never overlap draft or exchanged ones. |
| Kpis.ListingCountersMatchClassifier | src/utils/kpis.ts:3-20 | The active and draft counters are the numbers of listings the classifier calls active and draft. |
| Kpis.ExchangedCountSplit | src/utils/kpis.ts:21 | The exchanged counter is the number classified exchanged plus the number of exchanged drafts. |
| Kpis.ListingCountersTotal | src/utils/kpis.ts:19-21 | Active + draft + exchanged equals the number of products plus the number of exchanged drafts. |
| Kpis.ExchangedCounterMatchesClassifier | src/utils/kpis.ts:21 | The exchanged counter agrees with the classifier iff no draft is marked exchanged. |
| Kpis.ActiveChatsShrinkOverTime | src/utils/kpis.ts:26-30 | A later clock never finds more active chats. |
| Kpis.ActiveChatsWindow | src/utils/kpis.ts:26-30 | A chat is active iff its last message is at most 7 days before `now`, so future-dated chats count too. |
| Kpis.HidingKeepsKpis | src/utils/kpis.ts:19-24 | Hiding or unhiding a product changes no dashboard counter. |
| Kpis.ForceCancelNeverAddsPending | src/utils/kpis.ts:23 | Forcing a cancel never raises the pending-offer counter. |
| Kpis.ForceRejectNeverAddsPending | src/utils/kpis.ts:23 | Forcing a reject never raises the pending-offer counter. |
| Kpis.ForceAcceptNeverAddsPending | src/utils/kpis.ts:23 | Forcing an accept never raises the pending-offer counter. |

## Left out

- Randomness: faker's PRNG and its seeding (`faker.seed(seed)`) are not modelled. Each draw is a parameter, and the snapshot records the seed. Two runs with the same seed give the same snapshot only because they are given the same draws.
- Clock: `dayjs()`, `new Date()` and `Date.now()` become the `now` parameter. Times are integer milliseconds, not ISO strings.
- Day arithmetic: a day offset is an exact multiple of 86 400 000 ms. This covers `isoDaysAgo` and the generator's premium expiry `dayjs().add(7 or 14, 'day')`. The source gets this result only when it runs in UTC or in a time zone without daylight saving. dayjs adds calendar days in local time and keeps the wall-clock time, so across a daylight-saving change its gap is d·24 h plus or minus one hour. A date drawn up to 14 days back can then fall one hour outside the 14-day window that `GenMessages.MessageOk` and the other date bounds state. The store's `Date.now() + 7 * 864e5` is exact milliseconds in the source too.
- Floating point: trust scores are in hundredths and rounded half up, which is what `float({fractionDigits: 2})` and `toFixed(2)` produce on these values. The active-chat test compares milliseconds exactly instead of dividing by a day in floating point.
- Invalid dates: times are integers, so neither an unparsable `lastMessageTime` nor an unparsable `nowIso` can be written. In `computeKpis` either one makes `diffDays` NaN, the `<= 7` test false, and the chat inactive. A bad `nowIso` therefore gives `activeChats` 0. `Kpis.ComputeKpis` takes `now` as a number and cannot express that case. The dashboard passes `new Date().toISOString()`, which always parses.
- Display-only text and media are left out because no property depends on them: names, bios, emails, phone numbers, avatars, product titles, descriptions, prices, image URLs, category names, `changeProduct`, message images and statuses, report descriptions, and `recentSearchTerms`.
- Thread display fields beyond the participants and product are not modelled: `otherName`, `otherUsername`, `otherAvatar`, `isOnline`, `productName` and `productImage`.
- Location history and the location ids (`makeLocationSettings`'s 3–12 history entries) are left out. Only permission, city and radius are kept.
- Unicode: `toLowerCase` is modelled on ASCII, Latin-1, the Turkish capitals and the KELVIN SIGN U+212A, which lowers to ASCII `k`. Every other character is kept as it is. Its lower-case form holds no character of `[a-z0-9.]`, so the filter drops it either way.
- Option counts are natural numbers. In the source a negative count acts as 0: `Array.from` clamps the length to 0 and the loops do not run. A fractional count is rounded down by `Array.from` and up by the `for` loops. Neither case is modelled.
- Retry loops: the offer attempts (`i -= 1`) and the thread fill `while` loop run over a finite supply of draws, so a run that would loop forever in the source stops early here. Two such runs: every product is owned by one user and the other users own none, so every offer attempt is retried; or `threadsCount` exceeds the number of distinct thread keys, so the fill loop never reaches it. With a single user the source does not loop: its `pick` from the empty list of other users throws, and the model returns `Failure(EmptyPool(OtherUsersPool))` there too.
- State container: zustand's `create`/`set`, the hook and any re-rendering are not modelled. Each action is a function from one snapshot to the next.
- `banners`: the store defines no banner action, so none is modelled.
- Sampling.Pick: requires a non-empty pool. Every generator checks the pool first and returns `Failure(EmptyPool(..))` where the source's `pick` would throw.
- GenProducts.GenerateProducts: requires users when products are asked for. `MockDb.RunStages` returns the failure for that case.
- Store.Regenerate: requires draws that fit the default counts. It states that the result is consistent and carries the default seed, not that it equals a particular snapshot, because that snapshot depends on faker's PRNG.
