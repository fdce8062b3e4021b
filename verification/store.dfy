/** The mutation store of the admin panel (src/stores/mockStore.ts): every
    action maps one snapshot to the next. Records are found by the string
    form of their id, as the source compares `String(x.id)` with
    `String(key)`; `now` stands for the clock reading the source takes
    with `new Date()` or `Date.now()`. */
module Store {
  import opened Ids
  import opened Wrappers
  import opened Seqs
  import opened Models
  import opened Lookup
  import opened Consistency
  import O = GenOffers
  import T = GenThreads
  import F = GenFavorites
  import MockDb

  /** `String(id) === String(key)`. */
  predicate Hit(id: Id, key: Id) {
    Canon(id) == Canon(key)
  }

  /** How long a premium listing turned on without an expiry lasts. */
  const PREMIUM_TOGGLE_DAYS: nat := 7

  // ---------------------------------------------------------------- users

  /** The part of `Partial<User>` the actions patch. */
  datatype UserPatch = UserPatch(role: Option<Role>, onlineStatus: Option<bool>)

  /** `{ ...u, ...patch }`. */
  function PatchUser(u: User, patch: UserPatch): User {
    u.(role := OrElse(patch.role, u.role), onlineStatus := OrElse(patch.onlineStatus, u.onlineStatus))
  }

  predicate NoUser(users: seq<User>, key: Id) {
    forall i :: 0 <= i < |users| ==> !Hit(users[i].id, key)
  }

  /** `updateUser`: keeps length and order, patches exactly the users whose
      id reads as `key`, leaves every other one identical, and changes
      nothing when no id matches. */
  function UpdateUser(users: seq<User>, key: Id, patch: UserPatch): (r: seq<User>)
    ensures |r| == |users|
    ensures forall i :: 0 <= i < |users| ==>
      r[i] == if Hit(users[i].id, key) then PatchUser(users[i], patch) else users[i]
    ensures NoUser(users, key) ==> r == users
  {
    seq(|users|, i requires 0 <= i < |users| =>
      if Hit(users[i].id, key) then PatchUser(users[i], patch) else users[i])
  }

  /** `toggleUserVerified`: flips `verified` on the matching users; nothing
      but the users changes. */
  function ToggleUserVerified(db: Db, key: Id): (r: Db)
    ensures r == db.(users := r.users) && |r.users| == |db.users|
    ensures forall i :: 0 <= i < |db.users| ==>
      r.users[i] == if Hit(db.users[i].id, key) then db.users[i].(verified := !db.users[i].verified) else db.users[i]
  {
    db.(users := seq(|db.users|, i requires 0 <= i < |db.users| =>
      var u := db.users[i];
      if Hit(u.id, key) then u.(verified := !u.verified) else u))
  }

  /** `banUser`: the matching users become plain members and go offline;
      nothing else changes. */
  function BanUser(db: Db, key: Id): (r: Db)
    ensures r == db.(users := r.users) && |r.users| == |db.users|
    ensures forall i :: 0 <= i < |db.users| ==>
      r.users[i] == if Hit(db.users[i].id, key) then db.users[i].(role := Member, onlineStatus := false) else db.users[i]
  {
    db.(users := UpdateUser(db.users, key, UserPatch(Some(Member), Some(false))))
  }

  /** `unbanUser`: the matching users come online; their role is kept. */
  function UnbanUser(db: Db, key: Id): (r: Db)
    ensures r == db.(users := r.users) && |r.users| == |db.users|
    ensures forall i :: 0 <= i < |db.users| ==>
      r.users[i] == if Hit(db.users[i].id, key) then db.users[i].(onlineStatus := true) else db.users[i]
    ensures forall i :: 0 <= i < |db.users| ==> r.users[i].role == db.users[i].role
  {
    db.(users := UpdateUser(db.users, key, UserPatch(None, Some(true))))
  }

  /** Toggling verification twice restores the snapshot. */
  lemma ToggleUserVerifiedTwice(db: Db, key: Id)
    ensures ToggleUserVerified(ToggleUserVerified(db, key), key) == db
  {
    var once := ToggleUserVerified(db, key);
    var twice := ToggleUserVerified(once, key);
    forall i | 0 <= i < |db.users|
      ensures twice.users[i] == db.users[i]
    {
      assert once.users[i].id == db.users[i].id;
    }
  }

  /** Banning twice is banning once. */
  lemma BanUserIdempotent(db: Db, key: Id)
    ensures BanUser(BanUser(db, key), key) == BanUser(db, key)
  {
    var once := BanUser(db, key);
    forall i | 0 <= i < |db.users|
      ensures BanUser(once, key).users[i] == once.users[i]
    {
      assert once.users[i].id == db.users[i].id;
    }
  }

  /** Unbanning does not undo a ban's demotion: a banned user who is
      unbanned is a plain member again online. */
  lemma BanThenUnban(db: Db, key: Id, i: nat)
    requires i < |db.users| && Hit(db.users[i].id, key)
    ensures UnbanUser(BanUser(db, key), key).users[i].role == Member
    ensures UnbanUser(BanUser(db, key), key).users[i].onlineStatus
  {
    assert BanUser(db, key).users[i].id == db.users[i].id;
  }

  // ------------------------------------------------------------- products

  /** The part of `Partial<Product>` the actions patch; `premiumExpiryDate`
      and `hidden` are themselves optional fields. */
  datatype ProductPatch = ProductPatch(
    premium: Option<bool>,
    isAd: Option<bool>,
    premiumType: Option<PremiumType>,
    premiumExpiryDate: Option<Option<int>>,
    isExchanged: Option<bool>,
    hidden: Option<Option<bool>>)

  /** `{ ...p, ...patch }`. */
  function PatchProduct(p: Product, patch: ProductPatch): Product {
    p.(premium := OrElse(patch.premium, p.premium),
       isAd := OrElse(patch.isAd, p.isAd),
       premiumType := OrElse(patch.premiumType, p.premiumType),
       premiumExpiryDate := OrElse(patch.premiumExpiryDate, p.premiumExpiryDate),
       isExchanged := OrElse(patch.isExchanged, p.isExchanged),
       hidden := OrElse(patch.hidden, p.hidden))
  }

  predicate NoProduct(products: seq<Product>, key: Id) {
    forall i :: 0 <= i < |products| ==> !Hit(products[i].id, key)
  }

  /** `updateProduct`: keeps length and order, patches exactly the products
      whose id reads as `key`, and changes nothing when no id matches. */
  function UpdateProduct(products: seq<Product>, key: Id, patch: ProductPatch): (r: seq<Product>)
    ensures |r| == |products|
    ensures forall i :: 0 <= i < |products| ==>
      r[i] == if Hit(products[i].id, key) then PatchProduct(products[i], patch) else products[i]
    ensures NoProduct(products, key) ==> r == products
  {
    seq(|products|, i requires 0 <= i < |products| =>
      if Hit(products[i].id, key) then PatchProduct(products[i], patch) else products[i])
  }

  /** `products.find((p) => String(p.id) === String(key))`: the position of
      the first match. */
  function FindProduct(products: seq<Product>, key: Id): (r: Option<nat>)
    ensures r.Some? ==> r.value < |products| && Hit(products[r.value].id, key)
    ensures r.Some? ==> forall j :: 0 <= j < r.value ==> !Hit(products[j].id, key)
    ensures r.None? <==> NoProduct(products, key)
  {
    if |products| == 0 then None
    else if Hit(products[0].id, key) then Some(0)
    else match FindProduct(products[1..], key)
      case None => None
      case Some(k) => Some(k + 1)
  }

  /** The patch `toggleProductPremium` applies, computed from the first
      matching product: an explicit type decides, `'none'` meaning off;
      without one the flag flips and turning on picks `'featured'` after
      `'vitrin'` and `'vitrin'` otherwise. An expiry present is kept, a
      missing one becomes a week from now; turning off clears it. */
  function PremiumPatch(current: Product, premiumType: Option<PremiumType>, now: int): ProductPatch {
    var on := if premiumType.Some? then premiumType.value != Plain else !current.premium;
    var nextType := if premiumType.Some? then premiumType.value
      else if on then (if current.premiumType == Vitrin then Featured else Vitrin)
      else Plain;
    var expiry := if !on then None
      else if current.premiumExpiryDate.Some? then current.premiumExpiryDate
      else Some(now + PREMIUM_TOGGLE_DAYS * DAY_MS);
    ProductPatch(Some(on), Some(on), Some(if on then nextType else Plain), Some(expiry), None, None)
  }

  /** `toggleProductPremium(key, premiumType)`: an unknown id leaves the
      snapshot as it is; otherwise only the premium fields of the matching
      products change, and every one of them ends up premium-consistent
      whatever it was before. */
  function ToggleProductPremium(db: Db, key: Id, premiumType: Option<PremiumType>, now: int): (r: Db)
    ensures r == db.(products := r.products) && |r.products| == |db.products|
    ensures NoProduct(db.products, key) ==> r == db
    ensures forall i :: 0 <= i < |db.products| && !Hit(db.products[i].id, key) ==> r.products[i] == db.products[i]
    ensures forall i :: 0 <= i < |db.products| && Hit(db.products[i].id, key) ==>
      && PremiumConsistent(r.products[i])
      && r.products[i] == db.products[i].(premium := r.products[i].premium, isAd := r.products[i].isAd,
           premiumType := r.products[i].premiumType, premiumExpiryDate := r.products[i].premiumExpiryDate)
  {
    match FindProduct(db.products, key)
    case None => db
    case Some(k) => db.(products := UpdateProduct(db.products, key, PremiumPatch(db.products[k], premiumType, now)))
  }

  /** With an explicit type `t` the matching products are premium exactly
      when `t` is not `'none'`, then of type `t`; their expiry is the first
      match's if it had one, else a week from now. */
  lemma PremiumWithType(db: Db, key: Id, t: PremiumType, now: int, i: nat)
    requires i < |db.products| && Hit(db.products[i].id, key)
    ensures FindProduct(db.products, key).Some?
    ensures var current := db.products[FindProduct(db.products, key).value];
      var p := ToggleProductPremium(db, key, Some(t), now).products[i];
      && p.premium == (t != Plain)
      && p.premiumType == t
      && p.premiumExpiryDate ==
           if t == Plain then None
           else if current.premiumExpiryDate.Some? then current.premiumExpiryDate
           else Some(now + PREMIUM_TOGGLE_DAYS * DAY_MS)
  {
  }

  /** Without a type the flag of the first match flips: turning on yields
      `'featured'` exactly after `'vitrin'`, and `'vitrin'` otherwise;
      turning off yields `'none'` and no expiry. */
  lemma PremiumWithoutType(db: Db, key: Id, now: int, i: nat)
    requires i < |db.products| && Hit(db.products[i].id, key)
    ensures FindProduct(db.products, key).Some?
    ensures var current := db.products[FindProduct(db.products, key).value];
      var p := ToggleProductPremium(db, key, None, now).products[i];
      && p.premium == !current.premium
      && (p.premium ==> p.premiumType == (if current.premiumType == Vitrin then Featured else Vitrin))
      && (!p.premium ==> p.premiumType == Plain && p.premiumExpiryDate == None)
  {
  }

  /** Turning a premium product off and on again without a type always
      lands on `'vitrin'`, with a fresh week of expiry, whatever its type
      was before: the type does not alternate across an off/on cycle. */
  lemma PremiumOffThenOn(db: Db, key: Id, k: nat, now1: int, now2: int)
    requires k < |db.products| && FindProduct(db.products, key) == Some(k)
    requires db.products[k].premium
    ensures var p := ToggleProductPremium(ToggleProductPremium(db, key, None, now1), key, None, now2).products[k];
      p.premium && p.premiumType == Vitrin && p.premiumExpiryDate == Some(now2 + PREMIUM_TOGGLE_DAYS * DAY_MS)
  {
    var once := ToggleProductPremium(db, key, None, now1);
    assert once.products[k].id == db.products[k].id;
    assert FindProduct(once.products, key) == Some(k) by {
      forall j | 0 <= j < k
        ensures once.products[j] == db.products[j]
      {
      }
      FindProductAt(once.products, key, k);
    }
  }

  /** A non-premium, premium-consistent product toggled on and off again
      without a type is back to where it started. */
  lemma PremiumOnThenOff(db: Db, key: Id, k: nat, now1: int, now2: int)
    requires k < |db.products| && FindProduct(db.products, key) == Some(k)
    requires !db.products[k].premium && PremiumConsistent(db.products[k])
    ensures ToggleProductPremium(ToggleProductPremium(db, key, None, now1), key, None, now2).products[k] == db.products[k]
  {
    var once := ToggleProductPremium(db, key, None, now1);
    assert once.products[k].id == db.products[k].id;
    assert FindProduct(once.products, key) == Some(k) by {
      forall j | 0 <= j < k
        ensures once.products[j] == db.products[j]
      {
      }
      FindProductAt(once.products, key, k);
    }
  }

  /** The first match sits at `k` when `k` matches and nothing before it does. */
  lemma {:induction false} FindProductAt(products: seq<Product>, key: Id, k: nat)
    requires k < |products| && Hit(products[k].id, key)
    requires forall j :: 0 <= j < k ==> !Hit(products[j].id, key)
    ensures FindProduct(products, key) == Some(k)
  {
    if k > 0 {
      FindProductAt(products[1..], key, k - 1);
    }
  }

  /** `markProductExchanged(key, b)`: the matching products get
      `isExchanged = b`; their status and everything else stay. */
  function MarkProductExchanged(db: Db, key: Id, exchanged: bool): (r: Db)
    ensures r == db.(products := r.products) && |r.products| == |db.products|
    ensures forall i :: 0 <= i < |db.products| ==>
      r.products[i] == if Hit(db.products[i].id, key) then db.products[i].(isExchanged := exchanged) else db.products[i]
  {
    db.(products := UpdateProduct(db.products, key, ProductPatch(None, None, None, None, Some(exchanged), None)))
  }

  /** `!current.hidden`, where a missing flag reads as not hidden. */
  function Flipped(hidden: Option<bool>): bool {
    !OrElse(hidden, false)
  }

  /** `toggleProductHidden(key)`: an unknown id leaves the snapshot as it
      is; otherwise the matching products get the negation of the first
      match's flag, a missing flag turning into `true`. */
  function ToggleProductHidden(db: Db, key: Id): (r: Db)
    ensures r == db.(products := r.products) && |r.products| == |db.products|
    ensures NoProduct(db.products, key) ==> r == db
    ensures FindProduct(db.products, key).Some? ==>
      forall i :: 0 <= i < |db.products| ==>
        r.products[i] == if Hit(db.products[i].id, key)
          then db.products[i].(hidden := Some(!OrElse(db.products[FindProduct(db.products, key).value].hidden, false)))
          else db.products[i]
  {
    match FindProduct(db.products, key)
    case None => db
    case Some(k) => db.(products := UpdateProduct(db.products, key,
      ProductPatch(None, None, None, None, None, Some(Some(Flipped(db.products[k].hidden))))))
  }

  /** Hiding twice shows the product again; a product without a flag ends
      up explicitly shown. */
  lemma ToggleProductHiddenTwice(db: Db, key: Id, k: nat)
    requires k < |db.products| && FindProduct(db.products, key) == Some(k)
    ensures ToggleProductHidden(ToggleProductHidden(db, key), key).products[k].hidden
      == Some(OrElse(db.products[k].hidden, false))
  {
    var once := ToggleProductHidden(db, key);
    assert FindProduct(once.products, key) == Some(k) by {
      forall j | 0 <= j < k
        ensures once.products[j] == db.products[j]
      {
      }
      FindProductAt(once.products, key, k);
    }
  }

  // --------------------------------------------------------------- offers

  /** The part of `Partial<SwapOffer>` the actions patch. */
  datatype OfferPatch = OfferPatch(status: Option<OfferStatus>)

  predicate NoOffer(offers: seq<Offer>, key: Id) {
    forall i :: 0 <= i < |offers| ==> !Hit(offers[i].id, key)
  }

  /** `updateOffer`: like the other updates, and every patched offer is
      stamped `updatedAt = now`. */
  function UpdateOffer(offers: seq<Offer>, key: Id, patch: OfferPatch, now: int): (r: seq<Offer>)
    ensures |r| == |offers|
    ensures forall i :: 0 <= i < |offers| ==>
      r[i] == if Hit(offers[i].id, key)
        then offers[i].(status := OrElse(patch.status, offers[i].status), updatedAt := now)
        else offers[i]
    ensures NoOffer(offers, key) ==> r == offers
  {
    seq(|offers|, i requires 0 <= i < |offers| =>
      if Hit(offers[i].id, key) then offers[i].(status := OrElse(patch.status, offers[i].status), updatedAt := now)
      else offers[i])
  }

  /** `forceCancelOffer`: whatever their status, the matching offers become
      cancelled and are stamped now; nothing else changes. */
  function ForceCancelOffer(db: Db, key: Id, now: int): (r: Db)
    ensures r == db.(offers := r.offers) && |r.offers| == |db.offers|
    ensures forall i :: 0 <= i < |db.offers| ==>
      r.offers[i] == if Hit(db.offers[i].id, key) then db.offers[i].(status := Cancelled, updatedAt := now) else db.offers[i]
  {
    db.(offers := UpdateOffer(db.offers, key, OfferPatch(Some(Cancelled)), now))
  }

  /** `forceRejectOffer`: the matching offers become rejected, stamped now. */
  function ForceRejectOffer(db: Db, key: Id, now: int): (r: Db)
    ensures r == db.(offers := r.offers) && |r.offers| == |db.offers|
    ensures forall i :: 0 <= i < |db.offers| ==>
      r.offers[i] == if Hit(db.offers[i].id, key) then db.offers[i].(status := OfferStatus.Rejected, updatedAt := now) else db.offers[i]
  {
    db.(offers := UpdateOffer(db.offers, key, OfferPatch(Some(OfferStatus.Rejected)), now))
  }

  /** `forceAcceptOffer`: the matching offers become accepted, stamped now;
      no thread is opened for them. */
  function ForceAcceptOffer(db: Db, key: Id, now: int): (r: Db)
    ensures r == db.(offers := r.offers) && |r.offers| == |db.offers|
    ensures forall i :: 0 <= i < |db.offers| ==>
      r.offers[i] == if Hit(db.offers[i].id, key) then db.offers[i].(status := Accepted, updatedAt := now) else db.offers[i]
  {
    db.(offers := UpdateOffer(db.offers, key, OfferPatch(Some(Accepted)), now))
  }

  // ----------------------------------------------------------- regenerate

  /** `regenerate`: a fresh snapshot from `createMockDb()` with no options,
      so with the default seed and counts; it is consistent. */
  function Regenerate(d: MockDb.Draws, now: int): (r: Result<Db, GenError>)
    requires MockDb.DrawsFit(MockDb.DEFAULT_CONFIG, d)
    ensures r.Success? ==> r.value.seed == SEED && Consistent(r.value, now)
  {
    MockDb.CreateMockDbConsistent(MockDb.DEFAULT_CONFIG, d, now);
    MockDb.CreateMockDb(MockDb.ConfigOf(MockDb.NO_OPTIONS), d, now)
  }
}
