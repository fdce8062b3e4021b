/** The product stage of `createMockDb` and the hashtag normalisation
    that follows it. Product `idx` gets id `idx + 1000` and a random owner;
    the premium roll decides the whole premium triple. */
module GenProducts {
  import opened Ids
  import opened Wrappers
  import opened Sampling
  import opened Models
  import opened Lookup

  /** The draws one product consumes. Hashtags are the sampled tag texts. */
  datatype ProductDraw = ProductDraw(
    ownerDraw: nat,
    hashTags: seq<string>,
    premiumRoll: nat,
    premiumTypeRoll: nat,
    exchangedRoll: nat,
    draftRoll: nat,
    conditionDraw: nat,
    viewDraw: nat,
    hiddenRoll: nat)

  const CONDITIONS: seq<Condition> := [New, SlightlyUsed, Used]

  /** The largest view count a product is generated with. */
  const MAX_BASE_VIEWS: nat := 6500

  /** Days of premium a generated premium product gets: 7 for vitrin, 14 otherwise. */
  function PremiumDays(t: PremiumType): int {
    if t == Vitrin then 7 else 14
  }

  function MakeProduct(idx: nat, users: seq<User>, d: ProductDraw, now: int): Product
    requires |users| > 0
  {
    var owner := Pick(users, d.ownerDraw);
    var premium := Chance(8, d.premiumRoll);
    var premiumType := if premium then PremiumTypeFromRoll(d.premiumTypeRoll) else Plain;
    var condition := Pick(CONDITIONS, d.conditionDraw);
    Product(
      Num(idx + 1000),
      owner.id,
      d.hashTags,
      [],
      condition,
      if Chance(10, d.draftRoll) then Draft else InCondition(condition),
      Chance(15, d.exchangedRoll),
      premium,
      premium,
      premiumType,
      if premium then Some(now + PremiumDays(premiumType) * DAY_MS) else None,
      Between(0, MAX_BASE_VIEWS, d.viewDraw),
      0,
      0,
      Some(Chance(3, d.hiddenRoll)))
  }

  /** One product per draw, ids 1000, 1001, ...: each owned by a generated
      user, with the premium triple consistent, an expiry 7 (vitrin) or 14
      days ahead when premium, and no favorites or likes yet. Status is
      either draft or the product's own condition. */
  function GenerateProducts(users: seq<User>, draws: seq<ProductDraw>, now: int): (ps: seq<Product>)
    requires |users| > 0 || |draws| == 0
    ensures |ps| == |draws|
    ensures forall i :: 0 <= i < |ps| ==> ps[i].id == Num(i + 1000)
    ensures forall i :: 0 <= i < |ps| ==> ps[i].ownerId in UserIds(users)
    ensures forall i :: 0 <= i < |ps| ==> PremiumConsistent(ps[i])
    ensures forall i :: 0 <= i < |ps| ==> ps[i].premium ==>
      ps[i].premiumExpiryDate == Some(now + PremiumDays(ps[i].premiumType) * DAY_MS)
    ensures forall i :: 0 <= i < |ps| ==> ps[i].status == Draft || ps[i].status == InCondition(ps[i].condition)
    ensures forall i :: 0 <= i < |ps| ==>
      ps[i].favoritesCount == 0 && ps[i].likeCount == 0 && ps[i].viewCount <= MAX_BASE_VIEWS && ps[i].hashTags == draws[i].hashTags
  {
    seq(|draws|, i requires 0 <= i < |draws| => MakeProduct(i, users, draws[i], now))
  }

  /** Generated product ids are pairwise different even as strings. */
  lemma GeneratedProductIdsDistinct(users: seq<User>, draws: seq<ProductDraw>, now: int)
    requires |users| > 0 || |draws| == 0
    ensures CanonDistinct(ProductIds(GenerateProducts(users, draws, now)))
    ensures forall i :: 0 <= i < |draws| ==> IsDigits(Canon(GenerateProducts(users, draws, now)[i].id))
  {
    var ps := GenerateProducts(users, draws, now);
    NumberedIdsDistinct(ProductIds(ps), 1000);
  }

  predicate StartsWithHash(t: string) {
    |t| > 0 && t[0] == '#'
  }

  /** `t.startsWith('#') ? t : '#' + t`: the tag with a leading `#`, the
      original being the tag itself or the tag without that `#`. */
  function NormalizeTag(t: string): (r: string)
    ensures StartsWithHash(r)
    ensures r == t || r[1..] == t
    ensures |r| <= |t| + 1
  {
    if StartsWithHash(t) then t else "#" + t
  }

  /** Normalising twice is normalising once. */
  lemma NormalizeTagIdempotent(t: string)
    ensures NormalizeTag(NormalizeTag(t)) == NormalizeTag(t)
  {
  }

  /** Tags that already start with `#` are untouched; others get exactly one `#`. */
  lemma NormalizeTagAddsOneHash(t: string)
    ensures !StartsWithHash(t) ==> |NormalizeTag(t)| == |t| + 1
    ensures StartsWithHash(t) ==> NormalizeTag(t) == t
  {
  }

  /** `p.tags = p.hashTags.map(normalize)` for every product; nothing else changes. */
  function NormalizeTags(products: seq<Product>): (r: seq<Product>)
    ensures |r| == |products|
    ensures forall i :: 0 <= i < |r| ==> r[i] == products[i].(tags := r[i].tags)
    ensures forall i :: 0 <= i < |r| ==> |r[i].tags| == |products[i].hashTags|
    ensures forall i, j :: 0 <= i < |r| && 0 <= j < |r[i].tags| ==>
      StartsWithHash(r[i].tags[j]) && (r[i].tags[j] == products[i].hashTags[j] || r[i].tags[j][1..] == products[i].hashTags[j])
  {
    seq(|products|, i requires 0 <= i < |products| =>
      var p := products[i];
      p.(tags := seq(|p.hashTags|, j requires 0 <= j < |p.hashTags| => NormalizeTag(p.hashTags[j]))))
  }
}
