/** The read-side aggregations of src/utils/kpis.ts: the three-way listing
    classifier and the dashboard's counters. Both are pure; the clock is the
    `now` argument (the source's `nowIso`, falling back to the current
    time). */
module Kpis {
  import opened Ids
  import opened Wrappers
  import opened Seqs
  import opened Models
  import opened Store

  /** The classification `computeListingStatus` returns. */
  datatype ListingStatus = Active | DraftListing | Exchanged

  /** `computeListingStatus`: a draft is a draft even when exchanged; a
      published product is exchanged or active. */
  function ComputeListingStatus(p: Product): (s: ListingStatus)
    ensures s == DraftListing <==> p.status == Draft
    ensures s == Exchanged <==> p.status != Draft && p.isExchanged
    ensures s == Active <==> p.status != Draft && !p.isExchanged
  {
    if p.status == Draft then DraftListing
    else if p.isExchanged then Exchanged
    else Active
  }

  /** A chat counts as active while its last message is at most this many
      days before `now`. */
  const ACTIVE_CHAT_DAYS: nat := 7

  /** The filters of `computeKpis`, one per counter. */
  predicate CountsAsActive(p: Product) { p.status != Draft && !p.isExchanged }
  predicate CountsAsDraft(p: Product) { p.status == Draft }
  predicate CountsAsExchanged(p: Product) { p.isExchanged }
  predicate CountsAsPremium(p: Product) { p.premium }
  predicate CountsAsPending(o: Offer) { o.status == Pending }
  predicate CountsAsUnread(n: Notification) { !n.isRead }

  /** `(now - lastMessageTime) / DAY_MS <= 7`: dividing by a positive
      constant preserves the comparison, so this is a comparison of
      milliseconds; a message dated after `now` counts too. */
  predicate ActiveChat(t: Thread, now: int) {
    now - t.lastMessageTime <= ACTIVE_CHAT_DAYS * DAY_MS
  }

  /** The counters `computeKpis` returns. */
  datatype Kpis = Kpis(
    activeListings: nat,
    draftListings: nat,
    exchangedListings: nat,
    premiumListings: nat,
    pendingOffers: nat,
    unreadNotifications: nat,
    activeChats: nat)

  function ActiveChats(threads: seq<Thread>, now: int): nat {
    Count(threads, (t: Thread) => ActiveChat(t, now))
  }

  /** `computeKpis`: every counter counts part of its collection; active
      and draft listings never overlap, nor do active and exchanged ones. */
  function ComputeKpis(products: seq<Product>, offers: seq<Offer>, threads: seq<Thread>,
                       notifications: seq<Notification>, now: int): (k: Kpis)
    ensures k.activeListings + k.draftListings <= |products|
    ensures k.activeListings + k.exchangedListings <= |products|
    ensures k.premiumListings <= |products|
    ensures k.pendingOffers <= |offers|
    ensures k.unreadNotifications <= |notifications|
    ensures k.activeChats <= |threads|
  {
    var k := Kpis(
      Count(products, CountsAsActive),
      Count(products, CountsAsDraft),
      Count(products, CountsAsExchanged),
      Count(products, CountsAsPremium),
      Count(offers, CountsAsPending),
      Count(notifications, CountsAsUnread),
      ActiveChats(threads, now));
    DisjointCounts(products, CountsAsActive, CountsAsDraft);
    DisjointCounts(products, CountsAsActive, CountsAsExchanged);
    k
  }

  /** Two predicates that never hold together count at most the length. */
  lemma {:induction false} DisjointCounts<T>(s: seq<T>, f: T -> bool, g: T -> bool)
    requires forall i :: 0 <= i < |s| ==> !(f(s[i]) && g(s[i]))
    ensures Count(s, f) + Count(s, g) <= |s|
  {
    if |s| > 0 {
      DisjointCounts(s[1..], f, g);
    }
  }

  predicate ClassifiedActive(p: Product) { ComputeListingStatus(p) == Active }
  predicate ClassifiedDraft(p: Product) { ComputeListingStatus(p) == DraftListing }
  predicate ClassifiedExchanged(p: Product) { ComputeListingStatus(p) == Exchanged }
  predicate ExchangedDraft(p: Product) { p.status == Draft && p.isExchanged }

  /** The active and draft counters are the numbers of products the
      classifier calls active and draft. */
  lemma ListingCountersMatchClassifier(products: seq<Product>, offers: seq<Offer>, threads: seq<Thread>,
                                       notifications: seq<Notification>, now: int)
    ensures ComputeKpis(products, offers, threads, notifications, now).activeListings == Count(products, ClassifiedActive)
    ensures ComputeKpis(products, offers, threads, notifications, now).draftListings == Count(products, ClassifiedDraft)
  {
    CountCongruent(products, CountsAsActive, ClassifiedActive);
    CountCongruent(products, CountsAsDraft, ClassifiedDraft);
  }

  /** The exchanged counter also counts exchanged drafts, which the
      classifier calls drafts: it is the number classified exchanged plus
      the number of exchanged drafts. */
  lemma {:induction false} ExchangedCountSplit(products: seq<Product>)
    ensures Count(products, CountsAsExchanged) == Count(products, ClassifiedExchanged) + Count(products, ExchangedDraft)
  {
    if |products| > 0 {
      ExchangedCountSplit(products[1..]);
    }
  }

  /** So the three listing counters add up to more than the number of
      products by exactly the number of exchanged drafts. */
  lemma {:induction false} ListingCountersTotal(products: seq<Product>)
    ensures Count(products, CountsAsActive) + Count(products, CountsAsDraft) + Count(products, CountsAsExchanged)
      == |products| + Count(products, ExchangedDraft)
  {
    if |products| > 0 {
      ListingCountersTotal(products[1..]);
    }
  }

  /** The exchanged counter agrees with the classifier exactly when no
      draft is marked exchanged. */
  lemma ExchangedCounterMatchesClassifier(products: seq<Product>, offers: seq<Offer>, threads: seq<Thread>,
                                          notifications: seq<Notification>, now: int)
    ensures ComputeKpis(products, offers, threads, notifications, now).exchangedListings == Count(products, ClassifiedExchanged)
      <==> forall i :: 0 <= i < |products| ==> !(products[i].status == Draft && products[i].isExchanged)
  {
    ExchangedCountSplit(products);
    CountZero(products, ExchangedDraft);
  }

  /** A later clock never finds more active chats. */
  lemma ActiveChatsShrinkOverTime(threads: seq<Thread>, now1: int, now2: int)
    requires now1 <= now2
    ensures ActiveChats(threads, now2) <= ActiveChats(threads, now1)
  {
    CountMonotone(threads, (t: Thread) => ActiveChat(t, now2), (t: Thread) => ActiveChat(t, now1));
  }

  /** Every chat whose last message is not older than a week before `now`,
      future-dated ones included, is counted, and no other. */
  lemma ActiveChatsWindow(threads: seq<Thread>, now: int)
    ensures ActiveChats(threads, now) == Count(threads, (t: Thread) => t.lastMessageTime >= now - 7 * DAY_MS)
    ensures forall i :: 0 <= i < |threads| && threads[i].lastMessageTime >= now ==> ActiveChat(threads[i], now)
  {
    CountCongruent(threads, (t: Thread) => ActiveChat(t, now), (t: Thread) => t.lastMessageTime >= now - 7 * DAY_MS);
  }

  /** The counters of a snapshot. */
  function KpisOf(db: Db, now: int): Kpis {
    ComputeKpis(db.products, db.offers, db.threads, db.notifications, now)
  }

  /** Hiding a product leaves every field the counters read as it was. */
  lemma HidingKeepsCountedFields(db: Db, key: Id)
    ensures |ToggleProductHidden(db, key).products| == |db.products|
    ensures forall i :: 0 <= i < |db.products| ==>
      var p := ToggleProductHidden(db, key).products[i];
      p.status == db.products[i].status && p.isExchanged == db.products[i].isExchanged && p.premium == db.products[i].premium
  {
  }

  /** Hiding a product is invisible on the dashboard. */
  lemma HidingKeepsKpis(db: Db, key: Id, now: int)
    ensures KpisOf(ToggleProductHidden(db, key), now) == KpisOf(db, now)
  {
    var after := ToggleProductHidden(db, key);
    var ps := after.products;
    HidingKeepsCountedFields(db, key);
    CountAgree(ps, CountsAsActive, db.products, CountsAsActive);
    CountAgree(ps, CountsAsDraft, db.products, CountsAsDraft);
    CountAgree(ps, CountsAsExchanged, db.products, CountsAsExchanged);
    CountAgree(ps, CountsAsPremium, db.products, CountsAsPremium);
    assert after.offers == db.offers && after.threads == db.threads && after.notifications == db.notifications;
  }

  /** Forcing an offer's outcome never adds a pending offer. */
  lemma ForceCancelNeverAddsPending(db: Db, key: Id, now: int, t: int)
    ensures KpisOf(ForceCancelOffer(db, key, now), t).pendingOffers <= KpisOf(db, t).pendingOffers
  {
    CountBelow(ForceCancelOffer(db, key, now).offers, CountsAsPending, db.offers, CountsAsPending);
  }

  lemma ForceRejectNeverAddsPending(db: Db, key: Id, now: int, t: int)
    ensures KpisOf(ForceRejectOffer(db, key, now), t).pendingOffers <= KpisOf(db, t).pendingOffers
  {
    CountBelow(ForceRejectOffer(db, key, now).offers, CountsAsPending, db.offers, CountsAsPending);
  }

  lemma ForceAcceptNeverAddsPending(db: Db, key: Id, now: int, t: int)
    ensures KpisOf(ForceAcceptOffer(db, key, now), t).pendingOffers <= KpisOf(db, t).pendingOffers
  {
    CountBelow(ForceAcceptOffer(db, key, now).offers, CountsAsPending, db.offers, CountsAsPending);
  }
}
