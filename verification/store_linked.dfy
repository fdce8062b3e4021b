/** Which store actions keep a snapshot `Linked`: the references between
    collections and the counters the admin screens read. Each action only
    rewrites one collection, so each group of actions has a frame lemma
    saying which rewrites of that collection keep the snapshot linked; the
    frame lemmas are assembled from one lemma per group of facts. */
module StoreLinked {
  import opened Ids
  import opened Wrappers
  import opened Seqs
  import opened Models
  import opened Lookup
  import opened Consistency
  import opened Store
  import GenOffers
  import GenThreads
  import GenFavorites
  import GenSettings

  // ---------------------------------------------------------------- users

  /** `b` is `a` with at most roles, presence and verification changed. */
  predicate SameAccounts(a: seq<User>, b: seq<User>) {
    && |a| == |b|
    && forall i :: 0 <= i < |a| ==>
         b[i] == a[i].(role := b[i].role, onlineStatus := b[i].onlineStatus, verified := b[i].verified)
  }

  lemma AccountsUsersOk(a: seq<User>, b: seq<User>)
    requires UsersOk(a) && SameAccounts(a, b)
    requires |b| > 0 ==> b[0].role == Admin
    ensures UsersOk(b)
  {
    assert UserIds(b) == UserIds(a);
  }

  lemma AccountsFavoritesOk(a: seq<User>, b: seq<User>, products: seq<Product>)
    requires FavoritesOk(a, products) && SameAccounts(a, b)
    ensures FavoritesOk(b, products)
  {
    forall k | 0 <= k < |products|
      ensures GenFavorites.UsersListing(b, products[k].id) == GenFavorites.UsersListing(a, products[k].id)
    {
      var id := products[k].id;
      CountAgree(b, (u: User) => id in u.favoritesProductIds, a, (u: User) => id in u.favoritesProductIds);
    }
  }

  lemma AccountsSettingsOk(a: seq<User>, b: seq<User>, notificationSettings: map<string, NotificationSettings>,
                           locationSettings: map<string, LocationSettings>, trustScores: map<string, TrustScore>)
    requires SettingsOk(a, notificationSettings, locationSettings, trustScores) && SameAccounts(a, b)
    ensures SettingsOk(b, notificationSettings, locationSettings, trustScores)
  {
    assert GenSettings.UserKeys(b) == GenSettings.UserKeys(a) by {
      assert forall i :: 0 <= i < |b| ==> Canon(b[i].id) == Canon(a[i].id);
    }
  }

  /** The groups that see the users only through their ids. */
  lemma AccountsReferences(a: seq<User>, b: seq<User>, db: Db, now: int)
    requires SameAccounts(a, b)
    requires ProductsOk(a, db.products) && OffersLinked(a, db.products, db.offers)
    requires ThreadsOk(a, db.products, db.offers, db.threads)
    requires NotificationsOk(a, db.products, db.notifications, now) && ReportsOk(a, db.products, db.reports, now)
    ensures ProductsOk(b, db.products) && OffersLinked(b, db.products, db.offers)
    ensures ThreadsOk(b, db.products, db.offers, db.threads)
    ensures NotificationsOk(b, db.products, db.notifications, now) && ReportsOk(b, db.products, db.reports, now)
  {
    assert UserIds(b) == UserIds(a);
  }

  /** Changing roles, presence or verification keeps a snapshot linked as
      long as the first user stays an administrator. */
  lemma UsersFrameLinked(db: Db, r: Db, now: int)
    requires Linked(db, now)
    requires r == db.(users := r.users) && SameAccounts(db.users, r.users)
    requires |r.users| > 0 ==> r.users[0].role == Admin
    ensures Linked(r, now)
  {
    AccountsUsersOk(db.users, r.users);
    AccountsFavoritesOk(db.users, r.users, db.products);
    AccountsSettingsOk(db.users, r.users, db.notificationSettingsByUserId, db.locationSettingsByUserId, db.trustScoresByUserId);
    AccountsReferences(db.users, r.users, db, now);
  }

  lemma ToggleUserVerifiedAccounts(db: Db, key: Id)
    ensures SameAccounts(db.users, ToggleUserVerified(db, key).users)
    ensures |db.users| > 0 ==> ToggleUserVerified(db, key).users[0].role == db.users[0].role
  {
  }

  lemma UnbanUserAccounts(db: Db, key: Id)
    ensures SameAccounts(db.users, UnbanUser(db, key).users)
    ensures |db.users| > 0 ==> UnbanUser(db, key).users[0].role == db.users[0].role
  {
  }

  lemma BanUserAccounts(db: Db, key: Id)
    ensures SameAccounts(db.users, BanUser(db, key).users)
    ensures |db.users| > 0 ==>
      BanUser(db, key).users[0].role == if Hit(db.users[0].id, key) then Member else db.users[0].role
  {
  }

  /** Verification is not part of what links a snapshot. */
  lemma ToggleUserVerifiedKeepsLinked(db: Db, key: Id, now: int)
    requires Linked(db, now)
    ensures Linked(ToggleUserVerified(db, key), now)
  {
    ToggleUserVerifiedAccounts(db, key);
    UsersFrameLinked(db, ToggleUserVerified(db, key), now);
  }

  /** Unbanning keeps roles, so it keeps a snapshot linked. */
  lemma UnbanUserKeepsLinked(db: Db, key: Id, now: int)
    requires Linked(db, now)
    ensures Linked(UnbanUser(db, key), now)
  {
    UnbanUserAccounts(db, key);
    UsersFrameLinked(db, UnbanUser(db, key), now);
  }

  /** Banning demotes whatever it hits, the administrator included: a ban
      keeps a snapshot linked exactly when it misses the first user. */
  lemma BanUserKeepsLinked(db: Db, key: Id, now: int)
    requires Linked(db, now)
    ensures Linked(BanUser(db, key), now) <==> (|db.users| == 0 || !Hit(db.users[0].id, key))
  {
    BanUserAccounts(db, key);
    if |db.users| == 0 || !Hit(db.users[0].id, key) {
      UsersFrameLinked(db, BanUser(db, key), now);
    }
  }

  // ------------------------------------------------------------- products

  /** `b` is `a` with at most the premium fields, the exchange flag and the
      hidden flag changed, and every product premium-consistent. */
  predicate SameListings(a: seq<Product>, b: seq<Product>) {
    && |a| == |b|
    && forall i :: 0 <= i < |a| ==>
         && b[i] == a[i].(premium := b[i].premium, isAd := b[i].isAd, premiumType := b[i].premiumType,
                          premiumExpiryDate := b[i].premiumExpiryDate, isExchanged := b[i].isExchanged,
                          hidden := b[i].hidden)
         && PremiumConsistent(b[i])
  }

  /** Lookups by id see through such changes. */
  lemma ListingsLookups(a: seq<Product>, b: seq<Product>)
    requires SameListings(a, b)
    ensures ProductIds(b) == ProductIds(a)
    ensures forall f :: OwnerOf(b, f) == OwnerOf(a, f)
    ensures forall id, owner :: GenOffers.Listed(b, id, owner) <==> GenOffers.Listed(a, id, owner)
  {
    assert ProductIds(b) == ProductIds(a);
    forall f
      ensures OwnerOf(b, f) == OwnerOf(a, f)
    {
      var x := ProductIndex(a, f);
      var y := ProductIndex(b, f);
      if x.Some? {
        assert b[x.value].id == f;
      }
      if y.Some? {
        assert a[y.value].id == f;
      }
    }
    forall id, owner
      ensures GenOffers.Listed(b, id, owner) <==> GenOffers.Listed(a, id, owner)
    {
      if GenOffers.Listed(a, id, owner) {
        var i :| 0 <= i < |a| && a[i].id == id && a[i].ownerId == owner;
        assert b[i].id == id && b[i].ownerId == owner;
      }
      if GenOffers.Listed(b, id, owner) {
        var i :| 0 <= i < |b| && b[i].id == id && b[i].ownerId == owner;
        assert a[i].id == id && a[i].ownerId == owner;
      }
    }
  }

  lemma ListingsProductsOk(users: seq<User>, a: seq<Product>, b: seq<Product>)
    requires ProductsOk(users, a) && SameListings(a, b) && ProductIds(b) == ProductIds(a)
    ensures ProductsOk(users, b)
  {
  }

  lemma ListingsFavoritesOk(users: seq<User>, a: seq<Product>, b: seq<Product>)
    requires FavoritesOk(users, a) && SameListings(a, b)
    requires ProductIds(b) == ProductIds(a) && forall f :: OwnerOf(b, f) == OwnerOf(a, f)
    ensures FavoritesOk(users, b)
  {
  }

  lemma ListingsOffersLinked(users: seq<User>, a: seq<Product>, b: seq<Product>, offers: seq<Offer>)
    requires OffersLinked(users, a, offers)
    requires forall id, owner :: GenOffers.Listed(b, id, owner) <==> GenOffers.Listed(a, id, owner)
    ensures OffersLinked(users, b, offers)
  {
  }

  lemma ListingsNotificationsOk(users: seq<User>, a: seq<Product>, b: seq<Product>, notifications: seq<Notification>, now: int)
    requires NotificationsOk(users, a, notifications, now) && SameListings(a, b) && ProductIds(b) == ProductIds(a)
    ensures NotificationsOk(users, b, notifications, now)
  {
  }

  /** Changing premium, exchange or hidden state keeps a snapshot linked as
      long as every product stays premium-consistent. */
  lemma ProductsFrameLinked(db: Db, r: Db, now: int)
    requires Linked(db, now)
    requires r == db.(products := r.products) && SameListings(db.products, r.products)
    ensures Linked(r, now)
  {
    ListingsLookups(db.products, r.products);
    ListingsProductsOk(db.users, db.products, r.products);
    ListingsFavoritesOk(db.users, db.products, r.products);
    ListingsOffersLinked(db.users, db.products, r.products, db.offers);
    ListingsNotificationsOk(db.users, db.products, r.products, db.notifications, now);
  }

  lemma ToggleProductPremiumListings(db: Db, key: Id, premiumType: Option<PremiumType>, now: int)
    requires forall i :: 0 <= i < |db.products| ==> PremiumConsistent(db.products[i])
    ensures SameListings(db.products, ToggleProductPremium(db, key, premiumType, now).products)
  {
  }

  lemma MarkProductExchangedListings(db: Db, key: Id, exchanged: bool)
    requires forall i :: 0 <= i < |db.products| ==> PremiumConsistent(db.products[i])
    ensures SameListings(db.products, MarkProductExchanged(db, key, exchanged).products)
  {
  }

  lemma ToggleProductHiddenListings(db: Db, key: Id)
    requires forall i :: 0 <= i < |db.products| ==> PremiumConsistent(db.products[i])
    ensures SameListings(db.products, ToggleProductHidden(db, key).products)
  {
  }

  /** Every premium toggle leaves the toggled products consistent, so it
      keeps a snapshot linked. */
  lemma ToggleProductPremiumKeepsLinked(db: Db, key: Id, premiumType: Option<PremiumType>, now: int, t: int)
    requires Linked(db, t)
    ensures Linked(ToggleProductPremium(db, key, premiumType, now), t)
  {
    ToggleProductPremiumListings(db, key, premiumType, now);
    ProductsFrameLinked(db, ToggleProductPremium(db, key, premiumType, now), t);
  }

  /** Marking products exchanged keeps a snapshot linked. */
  lemma MarkProductExchangedKeepsLinked(db: Db, key: Id, exchanged: bool, now: int)
    requires Linked(db, now)
    ensures Linked(MarkProductExchanged(db, key, exchanged), now)
  {
    MarkProductExchangedListings(db, key, exchanged);
    ProductsFrameLinked(db, MarkProductExchanged(db, key, exchanged), now);
  }

  /** Hiding or showing products keeps a snapshot linked. */
  lemma ToggleProductHiddenKeepsLinked(db: Db, key: Id, now: int)
    requires Linked(db, now)
    ensures Linked(ToggleProductHidden(db, key), now)
  {
    ToggleProductHiddenListings(db, key);
    ProductsFrameLinked(db, ToggleProductHidden(db, key), now);
  }

  // ------------------------------------------------ the full invariant

  /** The user and product actions leave the offers alone, so they keep
      the generation-time invariant `Consistent` itself, not only `Linked`:
      only the offer actions stamp `updatedAt`. */
  lemma ToggleUserVerifiedKeepsConsistent(db: Db, key: Id, now: int)
    requires Consistent(db, now)
    ensures Consistent(ToggleUserVerified(db, key), now)
  {
    ConsistentIffLinkedDated(db, now);
    ConsistentIffLinkedDated(ToggleUserVerified(db, key), now);
    ToggleUserVerifiedKeepsLinked(db, key, now);
  }

  lemma UnbanUserKeepsConsistent(db: Db, key: Id, now: int)
    requires Consistent(db, now)
    ensures Consistent(UnbanUser(db, key), now)
  {
    ConsistentIffLinkedDated(db, now);
    ConsistentIffLinkedDated(UnbanUser(db, key), now);
    UnbanUserKeepsLinked(db, key, now);
  }

  /** A ban keeps a consistent snapshot consistent exactly when it misses
      the first user, the administrator. */
  lemma BanUserKeepsConsistent(db: Db, key: Id, now: int)
    requires Consistent(db, now)
    ensures Consistent(BanUser(db, key), now) <==> (|db.users| == 0 || !Hit(db.users[0].id, key))
  {
    ConsistentIffLinkedDated(db, now);
    ConsistentIffLinkedDated(BanUser(db, key), now);
    BanUserKeepsLinked(db, key, now);
  }

  /** A premium toggle at any clock keeps a snapshot consistent: the
      premium facts have no date bound, and the offers are untouched. */
  lemma ToggleProductPremiumKeepsConsistent(db: Db, key: Id, premiumType: Option<PremiumType>, now: int, t: int)
    requires Consistent(db, t)
    ensures Consistent(ToggleProductPremium(db, key, premiumType, now), t)
  {
    ConsistentIffLinkedDated(db, t);
    ConsistentIffLinkedDated(ToggleProductPremium(db, key, premiumType, now), t);
    ToggleProductPremiumKeepsLinked(db, key, premiumType, now, t);
  }

  lemma MarkProductExchangedKeepsConsistent(db: Db, key: Id, exchanged: bool, now: int)
    requires Consistent(db, now)
    ensures Consistent(MarkProductExchanged(db, key, exchanged), now)
  {
    ConsistentIffLinkedDated(db, now);
    ConsistentIffLinkedDated(MarkProductExchanged(db, key, exchanged), now);
    MarkProductExchangedKeepsLinked(db, key, exchanged, now);
  }

  lemma ToggleProductHiddenKeepsConsistent(db: Db, key: Id, now: int)
    requires Consistent(db, now)
    ensures Consistent(ToggleProductHidden(db, key), now)
  {
    ConsistentIffLinkedDated(db, now);
    ConsistentIffLinkedDated(ToggleProductHidden(db, key), now);
    ToggleProductHiddenKeepsLinked(db, key, now);
  }

  /** The offer actions are why the store keeps only `Linked`: stamping an
      offer created at another instant than `now` breaks its date facts. */
  lemma StampBreaksOfferDates(offers: seq<Offer>, key: Id, patch: OfferPatch, now: int, t: int, i: nat)
    requires i < |offers| && Hit(offers[i].id, key) && offers[i].createdAt != now
    ensures !OffersDated(UpdateOffer(offers, key, patch, now), t)
  {
    assert UpdateOffer(offers, key, patch, now)[i].updatedAt != UpdateOffer(offers, key, patch, now)[i].createdAt;
  }

  // --------------------------------------------------------------- offers

  /** `b` is `a` with at most statuses and update times changed. */
  predicate SameDeals(a: seq<Offer>, b: seq<Offer>) {
    && |a| == |b|
    && forall i :: 0 <= i < |a| ==> b[i] == a[i].(status := b[i].status, updatedAt := b[i].updatedAt)
  }

  /** Some thread is about the offer's product between its two sides. */
  predicate Covered(threads: seq<Thread>, o: Offer) {
    exists i :: 0 <= i < |threads| && GenThreads.Covers(threads[i], o)
  }

  /** Every offer that `b` makes accepted or completed has its thread. */
  predicate NewAcceptsCovered(a: seq<Offer>, b: seq<Offer>, threads: seq<Thread>)
    requires |a| == |b|
  {
    forall i :: 0 <= i < |b| && GenOffers.AcceptedLike(b[i]) && !GenOffers.AcceptedLike(a[i]) ==> Covered(threads, a[i])
  }

  lemma DealsOffersLinked(users: seq<User>, products: seq<Product>, a: seq<Offer>, b: seq<Offer>)
    requires OffersLinked(users, products, a) && SameDeals(a, b)
    ensures OffersLinked(users, products, b)
  {
    assert forall i :: 0 <= i < |b| ==> GenOffers.OfferLinked(users, products, a[i]);
  }

  lemma DealsThreadsOk(users: seq<User>, products: seq<Product>, a: seq<Offer>, b: seq<Offer>, threads: seq<Thread>)
    requires ThreadsOk(users, products, a, threads) && SameDeals(a, b) && NewAcceptsCovered(a, b, threads)
    ensures ThreadsOk(users, products, b, threads)
  {
    forall o | o in b && GenOffers.AcceptedLike(o)
      ensures Covered(threads, o)
    {
      var i :| 0 <= i < |b| && b[i] == o;
      if GenOffers.AcceptedLike(a[i]) {
        assert a[i] in a;
      }
      var j :| 0 <= j < |threads| && GenThreads.Covers(threads[j], a[i]);
      assert GenThreads.Covers(threads[j], o);
    }
  }

  /** Changing statuses keeps a snapshot linked as long as every offer that
      becomes accepted or completed already has its thread. */
  lemma OffersFrameLinked(db: Db, r: Db, now: int)
    requires Linked(db, now)
    requires r == db.(offers := r.offers) && SameDeals(db.offers, r.offers)
    requires NewAcceptsCovered(db.offers, r.offers, db.threads)
    ensures Linked(r, now)
  {
    DealsOffersLinked(db.users, db.products, db.offers, r.offers);
    DealsThreadsOk(db.users, db.products, db.offers, r.offers, db.threads);
  }

  lemma ForceCancelOfferDeals(db: Db, key: Id, now: int)
    ensures SameDeals(db.offers, ForceCancelOffer(db, key, now).offers)
    ensures NewAcceptsCovered(db.offers, ForceCancelOffer(db, key, now).offers, db.threads)
  {
  }

  lemma ForceRejectOfferDeals(db: Db, key: Id, now: int)
    ensures SameDeals(db.offers, ForceRejectOffer(db, key, now).offers)
    ensures NewAcceptsCovered(db.offers, ForceRejectOffer(db, key, now).offers, db.threads)
  {
  }

  lemma ForceAcceptOfferDeals(db: Db, key: Id, now: int)
    ensures SameDeals(db.offers, ForceAcceptOffer(db, key, now).offers)
    ensures (forall i :: 0 <= i < |db.offers| && Hit(db.offers[i].id, key) ==> Covered(db.threads, db.offers[i]))
      ==> NewAcceptsCovered(db.offers, ForceAcceptOffer(db, key, now).offers, db.threads)
  {
  }

  /** Cancelling never calls for a thread, so it keeps a snapshot linked. */
  lemma ForceCancelOfferKeepsLinked(db: Db, key: Id, now: int, t: int)
    requires Linked(db, t)
    ensures Linked(ForceCancelOffer(db, key, now), t)
  {
    ForceCancelOfferDeals(db, key, now);
    OffersFrameLinked(db, ForceCancelOffer(db, key, now), t);
  }

  /** Rejecting never calls for a thread, so it keeps a snapshot linked. */
  lemma ForceRejectOfferKeepsLinked(db: Db, key: Id, now: int, t: int)
    requires Linked(db, t)
    ensures Linked(ForceRejectOffer(db, key, now), t)
  {
    ForceRejectOfferDeals(db, key, now);
    OffersFrameLinked(db, ForceRejectOffer(db, key, now), t);
  }

  /** An accepted offer without a thread breaks the thread facts. */
  lemma OrphanBreaksThreads(users: seq<User>, products: seq<Product>, a: seq<Offer>, b: seq<Offer>, threads: seq<Thread>, i: nat)
    requires SameDeals(a, b) && i < |b|
    requires GenOffers.AcceptedLike(b[i]) && !Covered(threads, a[i])
    ensures !ThreadsOk(users, products, b, threads)
  {
    assert b[i] in b;
  }

  /** Forcing an accept opens no thread: it keeps a snapshot linked exactly
      when every offer it hits already has one. */
  lemma ForceAcceptOfferKeepsLinked(db: Db, key: Id, now: int, t: int)
    requires Linked(db, t)
    ensures Linked(ForceAcceptOffer(db, key, now), t) <==>
      forall i :: 0 <= i < |db.offers| && Hit(db.offers[i].id, key) ==> Covered(db.threads, db.offers[i])
  {
    var r := ForceAcceptOffer(db, key, now);
    ForceAcceptOfferDeals(db, key, now);
    if forall i :: 0 <= i < |db.offers| && Hit(db.offers[i].id, key) ==> Covered(db.threads, db.offers[i]) {
      OffersFrameLinked(db, r, t);
    } else {
      var i :| 0 <= i < |db.offers| && Hit(db.offers[i].id, key) && !Covered(db.threads, db.offers[i]);
      OrphanBreaksThreads(db.users, db.products, db.offers, r.offers, db.threads, i);
    }
  }
}
