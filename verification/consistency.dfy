/** What the admin screens rely on in a dataset `createMockDb` returns:
    every reference between collections resolves, the counters agree with
    the records they count, and each thread's summary agrees with its
    messages. Each group of facts is one predicate over the collections
    it involves; `Consistent` applies them all to a snapshot. */
module Consistency {
  import opened Ids
  import opened Wrappers
  import opened Sampling
  import opened Models
  import opened Lookup
  import opened Trust
  import GenProducts
  import GenFavorites
  import GenOffers
  import GenThreads
  import GenMessages
  import Reconcile
  import GenNotifications
  import GenReports
  import GenSettings

  /** Users: ids distinct even as strings, written in decimal, and the
      first user is an administrator. */
  predicate UsersOk(users: seq<User>) {
    && CanonDistinct(UserIds(users))
    && (forall i :: 0 <= i < |users| ==> IsDigits(Canon(users[i].id)))
    && (|users| > 0 ==> users[0].role == Admin)
  }

  /** Products: ids distinct even as strings and written in decimal, every
      owner a user, the premium triple consistent, every tag a hashtag. */
  predicate ProductsOk(users: seq<User>, products: seq<Product>) {
    && CanonDistinct(ProductIds(products))
    && (forall i :: 0 <= i < |products| ==> IsDigits(Canon(products[i].id)))
    && (forall i :: 0 <= i < |products| ==> products[i].ownerId in UserIds(users))
    && (forall i :: 0 <= i < |products| ==> PremiumConsistent(products[i]))
    && (forall i, j :: 0 <= i < |products| && 0 <= j < |products[i].tags| ==>
          GenProducts.StartsWithHash(products[i].tags[j]))
  }

  /** Favourites: no user lists a product twice, an unknown product or one
      of their own, nor more than sixty; a product's favourite and like
      counts both equal the number of users listing it. */
  predicate FavoritesOk(users: seq<User>, products: seq<Product>) {
    && GenFavorites.FavoritesWellFormed(users, products)
    && (forall i :: 0 <= i < |users| ==>
          && |users[i].favoritesProductIds| <= GenFavorites.MAX_FAVORITES
          && forall f :: f in users[i].favoritesProductIds ==>
               OwnerOf(products, f).Some? && OwnerOf(products, f) != Some(users[i].id))
    && (forall k :: 0 <= k < |products| ==>
          && products[k].favoritesCount == GenFavorites.UsersListing(users, products[k].id)
          && products[k].likeCount == products[k].favoritesCount)
  }

  /** Offers: numbered from 9001 on, each between two different users and
      naming a product of each side. */
  predicate OffersOk(users: seq<User>, products: seq<Product>, offers: seq<Offer>, now: int) {
    && GenOffers.NumberedFrom(offers, GenOffers.OFFER_ID_BASE + 1)
    && GenOffers.AllValid(users, products, offers, now)
  }

  /** Offers as the store keeps them: numbered from 9001 on, each between
      two different users and naming a product of each side; unlike
      `OffersOk`, nothing about their timestamps. */
  predicate OffersLinked(users: seq<User>, products: seq<Product>, offers: seq<Offer>) {
    && GenOffers.NumberedFrom(offers, GenOffers.OFFER_ID_BASE + 1)
    && forall i :: 0 <= i < |offers| ==> GenOffers.OfferLinked(users, products, offers[i])
  }

  /** One thread's participants and product: two different known users,
      the second being the other side, and a known product if any. */
  predicate ThreadShapeOk(users: seq<User>, products: seq<Product>, t: Thread) {
    && |t.userIds| == 2
    && t.userIds[0] != t.userIds[1]
    && t.otherUserId == t.userIds[1]
    && t.userIds[0] in UserIds(users) && t.userIds[1] in UserIds(users)
    && (t.productId.Some? ==> t.productId.value in ProductIds(products))
  }

  /** Threads: numbered `t_1`, `t_2`, ..., well shaped, never two between
      the same people about the same product, and one for every accepted
      or completed offer. */
  predicate ThreadsOk(users: seq<User>, products: seq<Product>, offers: seq<Offer>, threads: seq<Thread>) {
    && (forall i :: 0 <= i < |threads| ==>
          threads[i].id == GenThreads.ThreadIdAt(i + 1) && ThreadShapeOk(users, products, threads[i]))
    && (forall i, j :: 0 <= i < |threads| && 0 <= j < |threads| && i != j ==>
          GenThreads.KeyOfThread(threads[i]) != GenThreads.KeyOfThread(threads[j]))
    && (forall o :: o in offers && GenOffers.AcceptedLike(o) ==>
          exists i :: 0 <= i < |threads| && GenThreads.Covers(threads[i], o))
  }

  /** Messages: numbered `m_1`, `m_2`, ..., each in a thread and sent by
      one of its participants. */
  predicate MessagesOk(threads: seq<Thread>, messages: seq<Message>, now: int) {
    && GenMessages.NumberedFrom(messages, 1)
    && GenMessages.MessagesOk(threads, messages, now)
  }

  /** Each thread's summary agrees with its messages. */
  predicate SummariesOk(threads: seq<Thread>, messages: seq<Message>) {
    forall i :: 0 <= i < |threads| ==>
      Reconcile.SummaryOk(threads[i], Reconcile.MessagesOf(messages, threads[i].id))
  }

  /** Notifications: numbered `n_1`, `n_2`, ..., titled by type, about
      known users and products; a product has been viewed at least as
      often as "product viewed" notifications name it, and at most 6500
      times more. */
  predicate NotificationsOk(users: seq<User>, products: seq<Product>, notifications: seq<Notification>, now: int) {
    && GenNotifications.NumberedFrom(notifications, 1)
    && GenNotifications.NotificationsOk(users, products, notifications, now)
    && forall k :: 0 <= k < |products| ==>
         GenNotifications.ViewedCount(notifications, products[k].id) <= products[k].viewCount
         <= GenProducts.MAX_BASE_VIEWS + GenNotifications.ViewedCount(notifications, products[k].id)
  }

  /** Reports: numbered `r_1`, `r_2`, ..., from known users about other
      known users or known products. */
  predicate ReportsOk(users: seq<User>, products: seq<Product>, reports: seq<Report>, now: int) {
    && GenReports.NumberedFrom(reports, 1)
    && GenReports.ReportsOk(users, products, reports, now)
  }

  /** Per-user records: each map is keyed by exactly the users' ids as
      strings, and each user's entry holds the default notification
      settings, the user's city and a consistent trust score for them. */
  predicate SettingsOk(users: seq<User>, notificationSettings: map<string, NotificationSettings>,
                       locationSettings: map<string, LocationSettings>, trustScores: map<string, TrustScore>) {
    && notificationSettings.Keys == GenSettings.UserKeys(users)
    && locationSettings.Keys == GenSettings.UserKeys(users)
    && trustScores.Keys == GenSettings.UserKeys(users)
    && forall i :: 0 <= i < |users| ==>
         && Canon(users[i].id) in trustScores
         && notificationSettings[Canon(users[i].id)] == GenSettings.DEFAULT_NOTIFICATION_SETTINGS
         && locationSettings[Canon(users[i].id)].city == users[i].city
         && locationSettings[Canon(users[i].id)].nearbyRadiusKm in GenSettings.RADIUS_OPTIONS_KM
         && trustScores[Canon(users[i].id)].userId == users[i].id
         && TrustConsistent(trustScores[Canon(users[i].id)])
  }

  /** Every group at once, on a snapshot. */
  predicate Consistent(db: Db, now: int) {
    && UsersOk(db.users)
    && ProductsOk(db.users, db.products)
    && FavoritesOk(db.users, db.products)
    && OffersOk(db.users, db.products, db.offers, now)
    && ThreadsOk(db.users, db.products, db.offers, db.threads)
    && MessagesOk(db.threads, db.messages, now)
    && SummariesOk(db.threads, db.messages)
    && NotificationsOk(db.users, db.products, db.notifications, now)
    && ReportsOk(db.users, db.products, db.reports, now)
    && SettingsOk(db.users, db.notificationSettingsByUserId, db.locationSettingsByUserId, db.trustScoresByUserId)
  }

  /** The facts the admin screens rely on across mutations: `Consistent`
      with the offers' timestamps left free. */
  predicate Linked(db: Db, now: int) {
    && UsersOk(db.users)
    && ProductsOk(db.users, db.products)
    && FavoritesOk(db.users, db.products)
    && OffersLinked(db.users, db.products, db.offers)
    && ThreadsOk(db.users, db.products, db.offers, db.threads)
    && MessagesOk(db.threads, db.messages, now)
    && SummariesOk(db.threads, db.messages)
    && NotificationsOk(db.users, db.products, db.notifications, now)
    && ReportsOk(db.users, db.products, db.reports, now)
    && SettingsOk(db.users, db.notificationSettingsByUserId, db.locationSettingsByUserId, db.trustScoresByUserId)
  }

  /** The offers' generation-time dates: never updated, and created within
      the last 30 days. */
  predicate OffersDated(offers: seq<Offer>, now: int) {
    forall i :: 0 <= i < |offers| ==>
      && offers[i].updatedAt == offers[i].createdAt
      && now - GenOffers.MAX_OFFER_AGE_DAYS * DAY_MS <= offers[i].createdAt <= now
  }

  /** `Linked` drops exactly the offers' dates from `Consistent`. */
  lemma ConsistentIffLinkedDated(db: Db, now: int)
    ensures Consistent(db, now) <==> Linked(db, now) && OffersDated(db.offers, now)
  {
    if Consistent(db, now) {
      ConsistentIsLinked(db, now);
      assert forall i :: 0 <= i < |db.offers| ==>
        GenOffers.OfferValid(db.users, db.products, db.offers[i], now);
    }
    if Linked(db, now) && OffersDated(db.offers, now) {
      assert forall i :: 0 <= i < |db.offers| ==>
        GenOffers.OfferValid(db.users, db.products, db.offers[i], now);
    }
  }

  lemma ConsistentIsLinked(db: Db, now: int)
    requires Consistent(db, now)
    ensures Linked(db, now)
  {
    assert forall i :: 0 <= i < |db.offers| ==>
      GenOffers.OfferValid(db.users, db.products, db.offers[i], now);
  }
}
