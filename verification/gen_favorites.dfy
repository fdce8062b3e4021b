/** The favorites pass of `createMockDb`: every user favorites a random
    sample of at most 60 products they do not own; each favorite bumps the
    product's `favoritesCount` (found through a map keyed by canonical id),
    and finally `likeCount` mirrors `favoritesCount`. */
module GenFavorites {
  import opened Ids
  import opened Wrappers
  import opened Sampling
  import opened Seqs
  import opened Models
  import opened Lookup

  /** At most this many favorites per user. */
  const MAX_FAVORITES: nat := 60

  /** The draws one user consumes: the wished count and the swap draws of
      the sampling loop (one per element taken). */
  datatype FavoriteDraw = FavoriteDraw(countDraw: nat, swaps: seq<nat>)

  predicate DrawFits(d: FavoriteDraw) {
    |d.swaps| >= MAX_FAVORITES
  }

  function Min(a: nat, b: nat): nat {
    if a < b then a else b
  }

  /** `products.filter((p) => p.ownerId !== user.id)`. */
  function Candidates(products: seq<Product>, userId: Id): (r: seq<Product>)
    ensures forall i :: 0 <= i < |r| ==> r[i] in products && r[i].ownerId != userId
  {
    Filter(products, (p: Product) => p.ownerId != userId)
  }

  /** `arrayElements(candidates, Math.min(count, candidates.length))`, mapped to ids. */
  function FavoritesFor(products: seq<Product>, userId: Id, d: FavoriteDraw): (favs: seq<Id>)
    requires DrawFits(d)
    ensures |favs| == Min(Between(0, MAX_FAVORITES, d.countDraw), |Candidates(products, userId)|)
    ensures forall j :: 0 <= j < |favs| ==>
      exists i :: 0 <= i < |products| && products[i].id == favs[j] && products[i].ownerId != userId
    ensures Distinct(ProductIds(products)) ==> Distinct(favs)
  {
    var cands := Candidates(products, userId);
    var k := Min(Between(0, MAX_FAVORITES, d.countDraw), |cands|);
    var picks := SampleIndices(|cands|, k, d.swaps);
    var favs := seq(k, j requires 0 <= j < k => cands[picks[j]].id);
    assert forall j :: 0 <= j < k ==> cands[picks[j]] in products;
    if Distinct(ProductIds(products)) then
      CandidateIdsDistinct(products, userId);
      favs
    else
      favs
  }

  lemma CandidateIdsDistinct(products: seq<Product>, userId: Id)
    requires Distinct(ProductIds(products))
    ensures var c := Candidates(products, userId);
      forall i, j :: 0 <= i < |c| && 0 <= j < |c| && i != j ==> c[i].id != c[j].id
  {
    assert forall i, j :: 0 <= i < |products| && 0 <= j < |products| && i != j ==> products[i] != products[j] by {
      forall i, j | 0 <= i < |products| && 0 <= j < |products| && i != j
        ensures products[i] != products[j]
      {
        assert ProductIds(products)[i] != ProductIds(products)[j];
      }
    }
    var c := Candidates(products, userId);
    FilterDistinct(products, (p: Product) => p.ownerId != userId);
    forall i, j | 0 <= i < |c| && 0 <= j < |c| && i != j
      ensures c[i].id != c[j].id
    {
      var x :| 0 <= x < |products| && products[x] == c[i];
      var y :| 0 <= y < |products| && products[y] == c[j];
      assert c[i] != c[j];
      assert ProductIds(products)[x] == c[i].id && ProductIds(products)[y] == c[j].id;
    }
  }

  /** `productById.get(String(fav.id)).favoritesCount += 1`, when found. */
  function BumpFavorite(products: seq<Product>, fav: Id): (r: seq<Product>)
    ensures SameOwnership(products, r)
    ensures forall k :: 0 <= k < |r| ==> r[k] == products[k].(favoritesCount := r[k].favoritesCount)
  {
    match LastProductIndexByCanon(products, Canon(fav))
    case None => products
    case Some(k) => products[k := products[k].(favoritesCount := products[k].favoritesCount + 1)]
  }

  /** The favorites of one user, bumped in order. */
  function BumpAll(products: seq<Product>, favs: seq<Id>): (r: seq<Product>)
    ensures SameOwnership(products, r)
    ensures forall k :: 0 <= k < |r| ==> r[k] == products[k].(favoritesCount := r[k].favoritesCount)
    decreases |favs|
  {
    if |favs| == 0 then products else BumpAll(BumpFavorite(products, favs[0]), favs[1..])
  }

  /** The favorites of every user, user by user. */
  function BumpUsers(products: seq<Product>, users: seq<User>): (r: seq<Product>)
    ensures SameOwnership(products, r)
    ensures forall k :: 0 <= k < |r| ==> r[k] == products[k].(favoritesCount := r[k].favoritesCount)
    decreases |users|
  {
    if |users| == 0 then products
    else BumpUsers(BumpAll(products, users[0].favoritesProductIds), users[1..])
  }

  /** Favorites in `favs` that the canonical map sends to key `key`. */
  function CanonHits(favs: seq<Id>, key: string): nat {
    Count(favs, (f: Id) => Canon(f) == key)
  }

  /** Favorites over all users that the canonical map sends to key `key`. */
  function CanonHitsOfUsers(users: seq<User>, key: string): nat {
    if |users| == 0 then 0 else CanonHits(users[0].favoritesProductIds, key) + CanonHitsOfUsers(users[1..], key)
  }

  lemma SameOwnershipKeepsCanonDistinct(ps: seq<Product>, qs: seq<Product>)
    requires SameOwnership(ps, qs) && CanonDistinct(ProductIds(ps))
    ensures CanonDistinct(ProductIds(qs))
  {
    assert ProductIds(ps) == ProductIds(qs);
  }

  /** With canonically distinct product ids one favorite bumps exactly the
      product it names. */
  lemma BumpFavoriteEffect(products: seq<Product>, fav: Id, k: nat)
    requires CanonDistinct(ProductIds(products)) && k < |products|
    ensures BumpFavorite(products, fav)[k].favoritesCount ==
      products[k].favoritesCount + if Canon(products[k].id) == Canon(fav) then 1 else 0
  {
    match LastProductIndexByCanon(products, Canon(fav))
    case None =>
    case Some(m) =>
      if m != k {
        assert ProductIds(products)[m] == products[m].id && ProductIds(products)[k] == products[k].id;
      }
  }

  lemma {:induction false} BumpAllEffect(products: seq<Product>, favs: seq<Id>, k: nat)
    requires CanonDistinct(ProductIds(products)) && k < |products|
    ensures BumpAll(products, favs)[k].favoritesCount ==
      products[k].favoritesCount + CanonHits(favs, Canon(products[k].id))
    decreases |favs|
  {
    if |favs| > 0 {
      var next := BumpFavorite(products, favs[0]);
      BumpFavoriteEffect(products, favs[0], k);
      SameOwnershipKeepsCanonDistinct(products, next);
      BumpAllEffect(next, favs[1..], k);
    }
  }

  lemma {:induction false} BumpUsersEffect(products: seq<Product>, users: seq<User>, k: nat)
    requires CanonDistinct(ProductIds(products)) && k < |products|
    ensures BumpUsers(products, users)[k].favoritesCount ==
      products[k].favoritesCount + CanonHitsOfUsers(users, Canon(products[k].id))
    decreases |users|
  {
    if |users| > 0 {
      var next := BumpAll(products, users[0].favoritesProductIds);
      BumpAllEffect(products, users[0].favoritesProductIds, k);
      SameOwnershipKeepsCanonDistinct(products, next);
      BumpUsersEffect(next, users[1..], k);
    }
  }

  /** Number of users whose favorites list the product id `id`. */
  function UsersListing(users: seq<User>, id: Id): nat {
    Count(users, (u: User) => id in u.favoritesProductIds)
  }

  /** Every favorite names a product and no list repeats an id. */
  predicate FavoritesWellFormed(users: seq<User>, products: seq<Product>) {
    forall i :: 0 <= i < |users| ==>
      && Distinct(users[i].favoritesProductIds)
      && forall f :: f in users[i].favoritesProductIds ==> f in ProductIds(products)
  }

  /** Within one list without repeats, of ids of products with
      canonically distinct ids, a product is hit once if listed, else never. */
  lemma {:induction false} CanonHitsOfList(favs: seq<Id>, products: seq<Product>, k: nat)
    requires CanonDistinct(ProductIds(products)) && k < |products|
    requires Distinct(favs)
    requires forall f :: f in favs ==> f in ProductIds(products)
    ensures CanonHits(favs, Canon(products[k].id)) == if products[k].id in favs then 1 else 0
  {
    if |favs| > 0 {
      var id := products[k].id;
      assert id == ProductIds(products)[k];
      CanonEqInside(ProductIds(products), favs[0], id);
      assert Distinct(favs[1..]);
      CanonHitsOfList(favs[1..], products, k);
      if favs[0] == id {
        assert id !in favs[1..];
      }
    }
  }

  /** When favorites name products with canonically distinct ids and no
      list repeats, the canonical hits of a product are the users listing it. */
  lemma {:induction false} CanonHitsAreListings(users: seq<User>, products: seq<Product>, k: nat)
    requires CanonDistinct(ProductIds(products)) && k < |products|
    requires FavoritesWellFormed(users, products)
    ensures CanonHitsOfUsers(users, Canon(products[k].id)) == UsersListing(users, products[k].id)
    decreases |users|
  {
    if |users| > 0 {
      CanonHitsOfList(users[0].favoritesProductIds, products, k);
      assert FavoritesWellFormed(users[1..], products);
      CanonHitsAreListings(users[1..], products, k);
    }
  }

  /** The favorites pass: each user's favorites replaced by a fresh sample,
      each product's counts bumped by its favorites, likes mirrored. */
  function FavoritesPass(users: seq<User>, products: seq<Product>, draws: seq<FavoriteDraw>): (r: (seq<User>, seq<Product>))
    requires |draws| == |users|
    requires forall i :: 0 <= i < |draws| ==> DrawFits(draws[i])
    ensures |r.0| == |users| && |r.1| == |products|
    ensures forall i :: 0 <= i < |users| ==>
      r.0[i] == users[i].(favoritesProductIds := FavoritesFor(products, users[i].id, draws[i]))
    ensures SameOwnership(products, r.1)
    ensures forall k :: 0 <= k < |products| ==>
      r.1[k] == products[k].(favoritesCount := r.1[k].favoritesCount, likeCount := r.1[k].favoritesCount)
  {
    var users' := seq(|users|, i requires 0 <= i < |users| =>
      users[i].(favoritesProductIds := FavoritesFor(products, users[i].id, draws[i])));
    var bumped := BumpUsers(products, users');
    var products' := seq(|bumped|, k requires 0 <= k < |bumped| => bumped[k].(likeCount := bumped[k].favoritesCount));
    (users', products')
  }

  /** One user's sample: no own product, at most 60 entries and at most
      the number of candidates, every entry a product, no repeats. */
  lemma FavoritesForFacts(products: seq<Product>, userId: Id, d: FavoriteDraw)
    requires DrawFits(d) && CanonDistinct(ProductIds(products))
    ensures var favs := FavoritesFor(products, userId, d);
      && |favs| <= MAX_FAVORITES
      && |favs| <= |Candidates(products, userId)|
      && Distinct(favs)
      && forall f :: f in favs ==>
           f in ProductIds(products) && OwnerOf(products, f).Some? && OwnerOf(products, f) != Some(userId)
  {
    var favs := FavoritesFor(products, userId, d);
    CanonDistinctIsDistinct(ProductIds(products));
    forall f | f in favs
      ensures f in ProductIds(products) && OwnerOf(products, f).Some? && OwnerOf(products, f) != Some(userId)
    {
      var j :| 0 <= j < |favs| && favs[j] == f;
      var x :| 0 <= x < |products| && products[x].id == f && products[x].ownerId != userId;
      OwnerOfMember(products, x);
      assert ProductIds(products)[x] == f;
    }
  }

  /** After the pass nobody favorites their own product, no list exceeds
      60 entries or the number of candidates, and every favorite names a
      product, at most once. */
  lemma FavoritesPassOwnership(users: seq<User>, products: seq<Product>, draws: seq<FavoriteDraw>)
    requires |draws| == |users|
    requires forall i :: 0 <= i < |draws| ==> DrawFits(draws[i])
    requires CanonDistinct(ProductIds(products))
    ensures var users' := FavoritesPass(users, products, draws).0;
      && (forall i :: 0 <= i < |users'| ==>
            && |users'[i].favoritesProductIds| <= MAX_FAVORITES
            && |users'[i].favoritesProductIds| <= |Candidates(products, users[i].id)|
            && forall f :: f in users'[i].favoritesProductIds ==>
                 OwnerOf(products, f).Some? && OwnerOf(products, f) != Some(users'[i].id))
      && FavoritesWellFormed(users', products)
  {
    var users' := FavoritesPass(users, products, draws).0;
    forall i | 0 <= i < |users'|
      ensures users'[i].id == users[i].id
      ensures users'[i].favoritesProductIds == FavoritesFor(products, users[i].id, draws[i])
    {
    }
    forall i | 0 <= i < |users'|
      ensures var favs := FavoritesFor(products, users[i].id, draws[i]);
        && |favs| <= MAX_FAVORITES
        && |favs| <= |Candidates(products, users[i].id)|
        && Distinct(favs)
        && forall f :: f in favs ==>
             f in ProductIds(products) && OwnerOf(products, f).Some? && OwnerOf(products, f) != Some(users[i].id)
    {
      FavoritesForFacts(products, users[i].id, draws[i]);
    }
  }

  /** After the pass every product's favorites count grows by the number
      of users now listing it, and its like count equals its favorites count. */
  lemma FavoritesPassCounts(users: seq<User>, products: seq<Product>, draws: seq<FavoriteDraw>)
    requires |draws| == |users|
    requires forall i :: 0 <= i < |draws| ==> DrawFits(draws[i])
    requires CanonDistinct(ProductIds(products))
    ensures var (users', products') := FavoritesPass(users, products, draws);
      forall k :: 0 <= k < |products'| ==>
        && products'[k].favoritesCount == products[k].favoritesCount + UsersListing(users', products[k].id)
        && products'[k].likeCount == products'[k].favoritesCount
  {
    var (users', products') := FavoritesPass(users, products, draws);
    FavoritesPassOwnership(users, products, draws);
    var bumped := BumpUsers(products, users');
    assert forall k :: 0 <= k < |products'| ==> products'[k].favoritesCount == bumped[k].favoritesCount;
    forall k | 0 <= k < |products'|
      ensures products'[k].favoritesCount == products[k].favoritesCount + UsersListing(users', products[k].id)
    {
      BumpUsersEffect(products, users', k);
      CanonHitsAreListings(users', products, k);
    }
  }
}
