/** The offers pass of `createMockDb`: each attempt picks a target product,
    an initiator among the other users and one of the initiator's products;
    an initiator without products makes the attempt be retried. */
module GenOffers {
  import opened Ids
  import opened Wrappers
  import opened Sampling
  import opened Seqs
  import opened Models
  import opened Lookup

  /** Offer ids continue from here: the n-th offer kept is `9000 + n`. */
  const OFFER_ID_BASE: nat := 9000
  const MAX_OFFER_AGE_DAYS: nat := 30

  /** The draws of one attempt. */
  datatype OfferDraw = OfferDraw(targetDraw: nat, initiatorDraw: nat, offeredDraw: nat, statusRoll: nat, daysDraw: nat)

  /** Some product has id `id` and owner `owner`. */
  predicate Listed(products: seq<Product>, id: Id, owner: Id) {
    exists i :: 0 <= i < |products| && products[i].id == id && products[i].ownerId == owner
  }

  /** An offer's references: both products exist, each owned by its side,
      and the two sides are different users. */
  predicate OfferLinked(users: seq<User>, products: seq<Product>, o: Offer) {
    && o.initiatorId != o.targetUserId
    && o.initiatorId in UserIds(users)
    && Listed(products, o.targetProductId, o.targetUserId)
    && Listed(products, o.offeredProductId, o.initiatorId)
  }

  /** What every generated offer satisfies: its references hold, and it is
      at most 30 days old and never updated. */
  predicate OfferValid(users: seq<User>, products: seq<Product>, o: Offer, now: int) {
    && OfferLinked(users, products, o)
    && o.updatedAt == o.createdAt
    && now - MAX_OFFER_AGE_DAYS * DAY_MS <= o.createdAt <= now
  }

  /** The attempt gets past every `pick` and finds the initiator owning a product. */
  predicate Succeeds(users: seq<User>, products: seq<Product>, d: OfferDraw) {
    && |products| > 0
    && |OtherUsers(users, Pick(products, d.targetDraw).ownerId)| > 0
    && |OwnedBy(products, Pick(OtherUsers(users, Pick(products, d.targetDraw).ownerId), d.initiatorDraw).id)| > 0
  }

  /** One iteration of the offers loop; `None` when it is retried. The
      source's second guard (offered product owned by the target user) is
      left out: `OfferFallbackNeverFires` shows it cannot hold. */
  function Attempt(users: seq<User>, products: seq<Product>, d: OfferDraw, now: int, kept: nat): (r: Result<Option<Offer>, GenError>)
    ensures r.Success? && r.value.Some? ==>
      && r.value.value.id == Num(OFFER_ID_BASE + kept + 1)
      && r.value.value.status == OfferStatusFromRoll(d.statusRoll)
  {
    if |products| == 0 then Failure(EmptyPool(ProductsPool))
    else
      var target := Pick(products, d.targetDraw);
      var others := OtherUsers(users, target.ownerId);
      if |others| == 0 then Failure(EmptyPool(OtherUsersPool))
      else
        var initiator := Pick(others, d.initiatorDraw);
        var own := OwnedBy(products, initiator.id);
        if |own| == 0 then Success(None)
        else
          var offered := Pick(own, d.offeredDraw);
          var days := Between(0, MAX_OFFER_AGE_DAYS, d.daysDraw);
          DaysAgoWindow(now, days, MAX_OFFER_AGE_DAYS);
          var createdAt := DaysAgo(now, days);
          Success(Some(Offer(Num(OFFER_ID_BASE + kept + 1), initiator.id, target.ownerId, target.id, offered.id,
            OfferStatusFromRoll(d.statusRoll), createdAt, createdAt)))
  }

  /** An attempt fails exactly on an empty pool. */
  lemma AttemptFails(users: seq<User>, products: seq<Product>, d: OfferDraw, now: int, kept: nat)
    ensures var r := Attempt(users, products, d, now, kept);
      && (|products| == 0 ==> r == Failure(EmptyPool(ProductsPool)))
      && (|products| > 0 && |OtherUsers(users, Pick(products, d.targetDraw).ownerId)| == 0 ==>
            r == Failure(EmptyPool(OtherUsersPool)))
      && (|products| > 0 && |OtherUsers(users, Pick(products, d.targetDraw).ownerId)| > 0 ==> r.Success?)
  {
  }

  /** An attempt yields an offer exactly when it `Succeeds`. */
  lemma AttemptYields(users: seq<User>, products: seq<Product>, d: OfferDraw, now: int, kept: nat)
    ensures var r := Attempt(users, products, d, now, kept);
      r.Success? && r.value.Some? <==> Succeeds(users, products, d)
  {
  }

  /** Every offer an attempt yields is valid. */
  lemma AttemptValid(users: seq<User>, products: seq<Product>, d: OfferDraw, now: int, kept: nat)
    ensures var r := Attempt(users, products, d, now, kept);
      r.Success? && r.value.Some? ==> OfferValid(users, products, r.value.value, now)
  {
    var r := Attempt(users, products, d, now, kept);
    if r.Success? && r.value.Some? {
      var target := Pick(products, d.targetDraw);
      var initiator := Pick(OtherUsers(users, target.ownerId), d.initiatorDraw);
      var offered := Pick(OwnedBy(products, initiator.id), d.offeredDraw);
      assert initiator in users;
      var k :| 0 <= k < |users| && users[k] == initiator;
      assert UserIds(users)[k] == initiator.id;
      var t :| 0 <= t < |products| && products[t] == target;
      var f :| 0 <= f < |products| && products[f] == offered;
    }
  }

  /** `Succeeds` as a predicate on draws. */
  function SucceedsWith(users: seq<User>, products: seq<Product>): OfferDraw -> bool {
    (d: OfferDraw) => Succeeds(users, products, d)
  }

  /** Draws whose attempt yields an offer. */
  function Successes(users: seq<User>, products: seq<Product>, draws: seq<OfferDraw>): nat {
    Count(draws, SucceedsWith(users, products))
  }

  /** The offers carry consecutive numeric ids starting at `first`. */
  predicate NumberedFrom(offers: seq<Offer>, first: nat) {
    forall i :: 0 <= i < |offers| ==> offers[i].id == Num(first + i)
  }

  /** Every offer is valid. */
  predicate AllValid(users: seq<User>, products: seq<Product>, offers: seq<Offer>, now: int) {
    forall i :: 0 <= i < |offers| ==> OfferValid(users, products, offers[i], now)
  }

  function Min(a: nat, b: nat): nat {
    if a < b then a else b
  }

  /** One iteration of the offers loop, given its draws and the number of
      offers kept before it: an offer, a retry (`None`) or a throw. */
  type Step = (OfferDraw, nat) -> Result<Option<Offer>, GenError>

  /** The loop over the attempts `draws`, until `count` offers are kept;
      `kept` offers precede these ones. */
  function Loop(step: Step, draws: seq<OfferDraw>, count: nat, kept: nat): Result<seq<Offer>, GenError>
    decreases |draws|
  {
    if count == 0 || |draws| == 0 then Success([])
    else
      match step(draws[0], kept)
      case Failure(e) => Failure(e)
      case Success(None) => Loop(step, draws[1..], count, kept)
      case Success(Some(o)) =>
        match Loop(step, draws[1..], count - 1, kept + 1)
        case Failure(e) => Failure(e)
        case Success(rest) => Success([o] + rest)
  }

  /** The step keeps an offer. */
  predicate Keeps(step: Step, d: OfferDraw, k: nat) {
    step(d, k).Success? && step(d, k).value.Some?
  }

  /** The offer kept after `k` others is numbered `9000 + k + 1`. */
  ghost predicate NumbersKept(step: Step) {
    forall d, k :: Keeps(step, d, k) ==> step(d, k).value.value.id == Num(OFFER_ID_BASE + k + 1)
  }

  /** Whether the step keeps an offer depends on its draws alone. */
  ghost predicate KeepsWhen(step: Step, fires: OfferDraw -> bool) {
    forall d, k :: Keeps(step, d, k) == fires(d)
  }

  /** Every offer the step keeps satisfies `p`. */
  ghost predicate KeepsOnly(step: Step, p: Offer -> bool) {
    forall d, k :: Keeps(step, d, k) ==> p(step(d, k).value.value)
  }

  /** The step throws only on an empty pool. */
  ghost predicate ThrowsOnEmpty(step: Step) {
    forall d, k :: step(d, k).Failure? ==> step(d, k).error.EmptyPool?
  }

  /** The step never throws. */
  ghost predicate NeverThrows(step: Step) {
    forall d, k :: step(d, k).Success?
  }

  lemma NumberedCons(o: Offer, rest: seq<Offer>, first: nat)
    requires o.id == Num(first) && NumberedFrom(rest, first + 1)
    ensures NumberedFrom([o] + rest, first)
  {
    assert forall i :: 1 <= i < |rest| + 1 ==> ([o] + rest)[i] == rest[i - 1];
  }

  lemma {:induction false} LoopNumbered(step: Step, draws: seq<OfferDraw>, count: nat, kept: nat)
    requires NumbersKept(step)
    ensures var r := Loop(step, draws, count, kept);
      r.Success? ==> |r.value| <= count && NumberedFrom(r.value, OFFER_ID_BASE + kept + 1)
    decreases |draws|
  {
    if count > 0 && |draws| > 0 {
      var a := step(draws[0], kept);
      if a.Success? && a.value.None? {
        LoopNumbered(step, draws[1..], count, kept);
      } else if a.Success? {
        assert Keeps(step, draws[0], kept);
        LoopNumbered(step, draws[1..], count - 1, kept + 1);
        var rest := Loop(step, draws[1..], count - 1, kept + 1);
        if rest.Success? {
          NumberedCons(a.value.value, rest.value, OFFER_ID_BASE + kept + 1);
        }
      }
    }
  }

  lemma {:induction false} LoopLength(step: Step, fires: OfferDraw -> bool, draws: seq<OfferDraw>, count: nat, kept: nat)
    requires KeepsWhen(step, fires)
    ensures var r := Loop(step, draws, count, kept);
      r.Success? ==> |r.value| == Min(count, Count(draws, fires))
    decreases |draws|
  {
    if count > 0 && |draws| > 0 {
      assert draws == [draws[0]] + draws[1..];
      CountAppend([draws[0]], draws[1..], fires);
      CountSingle(draws[0], fires);
      assert Keeps(step, draws[0], kept) == fires(draws[0]);
      var a := step(draws[0], kept);
      if a.Success? && a.value.None? {
        LoopLength(step, fires, draws[1..], count, kept);
      } else if a.Success? {
        LoopLength(step, fires, draws[1..], count - 1, kept + 1);
      }
    }
  }

  lemma {:induction false} LoopKeepsOnly(step: Step, p: Offer -> bool, draws: seq<OfferDraw>, count: nat, kept: nat)
    requires KeepsOnly(step, p)
    ensures var r := Loop(step, draws, count, kept);
      r.Success? ==> forall i :: 0 <= i < |r.value| ==> p(r.value[i])
    decreases |draws|
  {
    if count > 0 && |draws| > 0 {
      var a := step(draws[0], kept);
      if a.Success? && a.value.None? {
        LoopKeepsOnly(step, p, draws[1..], count, kept);
      } else if a.Success? {
        assert Keeps(step, draws[0], kept);
        LoopKeepsOnly(step, p, draws[1..], count - 1, kept + 1);
        var rest := Loop(step, draws[1..], count - 1, kept + 1);
        if rest.Success? {
          assert forall i :: 1 <= i < |rest.value| + 1 ==> ([a.value.value] + rest.value)[i] == rest.value[i - 1];
        }
      }
    }
  }

  lemma {:induction false} LoopErrors(step: Step, draws: seq<OfferDraw>, count: nat, kept: nat)
    requires ThrowsOnEmpty(step)
    ensures var r := Loop(step, draws, count, kept);
      r.Failure? ==> r.error.EmptyPool?
    decreases |draws|
  {
    if count > 0 && |draws| > 0 {
      var a := step(draws[0], kept);
      if a.Success? && a.value.None? {
        LoopErrors(step, draws[1..], count, kept);
      } else if a.Success? {
        LoopErrors(step, draws[1..], count - 1, kept + 1);
      }
    }
  }

  lemma {:induction false} LoopSucceeds(step: Step, draws: seq<OfferDraw>, count: nat, kept: nat)
    requires NeverThrows(step)
    ensures Loop(step, draws, count, kept).Success?
    decreases |draws|
  {
    if count > 0 && |draws| > 0 {
      var a := step(draws[0], kept);
      if a.value.None? {
        LoopSucceeds(step, draws[1..], count, kept);
      } else {
        LoopSucceeds(step, draws[1..], count - 1, kept + 1);
      }
    }
  }

  /** The attempts of the offers loop. */
  function Attempts(users: seq<User>, products: seq<Product>, now: int): Step {
    (d: OfferDraw, k: nat) => Attempt(users, products, d, now, k)
  }

  lemma AttemptsNumbered(users: seq<User>, products: seq<Product>, now: int)
    ensures NumbersKept(Attempts(users, products, now))
  {
  }

  /** The offers loop over the attempts `draws`, until `count` offers are
      kept; `kept` offers precede these ones. */
  function RunOffers(users: seq<User>, products: seq<Product>, draws: seq<OfferDraw>, count: nat, now: int, kept: nat): (r: Result<seq<Offer>, GenError>)
    ensures r.Success? ==> |r.value| <= count
    ensures r.Success? ==> NumberedFrom(r.value, OFFER_ID_BASE + kept + 1)
  {
    AttemptsNumbered(users, products, now);
    LoopNumbered(Attempts(users, products, now), draws, count, kept);
    Loop(Attempts(users, products, now), draws, count, kept)
  }

  lemma SuccessesUnfold(users: seq<User>, products: seq<Product>, draws: seq<OfferDraw>)
    requires |draws| > 0
    ensures Successes(users, products, draws) ==
      (if Succeeds(users, products, draws[0]) then 1 else 0) + Successes(users, products, draws[1..])
  {
  }

  /** The loop keeps `count` offers, or every successful attempt when the
      draws run out first: a retried attempt adds nothing. */
  lemma RunOffersLength(users: seq<User>, products: seq<Product>, draws: seq<OfferDraw>, count: nat, now: int, kept: nat)
    ensures var r := RunOffers(users, products, draws, count, now, kept);
      r.Success? ==> |r.value| == Min(count, Successes(users, products, draws))
  {
    var step := Attempts(users, products, now);
    forall d, k
      ensures Keeps(step, d, k) == SucceedsWith(users, products)(d)
    {
      AttemptYields(users, products, d, now, k);
    }
    LoopLength(step, SucceedsWith(users, products), draws, count, kept);
  }

  /** Every offer the loop keeps is valid. */
  lemma RunOffersValid(users: seq<User>, products: seq<Product>, draws: seq<OfferDraw>, count: nat, now: int, kept: nat)
    ensures var r := RunOffers(users, products, draws, count, now, kept);
      r.Success? ==> AllValid(users, products, r.value, now)
  {
    var step := Attempts(users, products, now);
    var valid := (o: Offer) => OfferValid(users, products, o, now);
    forall d, k | Keeps(step, d, k)
      ensures valid(step(d, k).value.value)
    {
      AttemptValid(users, products, d, now, k);
    }
    LoopKeepsOnly(step, valid, draws, count, kept);
  }

  /** With products and at least two users of distinct ids no `pick` meets
      an empty pool. */
  lemma RunOffersSucceeds(users: seq<User>, products: seq<Product>, draws: seq<OfferDraw>, count: nat, now: int, kept: nat)
    requires |products| > 0 && |users| >= 2 && Distinct(UserIds(users))
    ensures RunOffers(users, products, draws, count, now, kept).Success?
  {
    var step := Attempts(users, products, now);
    forall d, k
      ensures step(d, k).Success?
    {
      OtherUsersNonEmpty(users, Pick(products, d.targetDraw).ownerId);
      AttemptFails(users, products, d, now, k);
    }
    LoopSucceeds(step, draws, count, kept);
  }

  /** The loop throws only by drawing from an empty pool. */
  lemma RunOffersErrors(users: seq<User>, products: seq<Product>, draws: seq<OfferDraw>, count: nat, now: int, kept: nat)
    ensures var r := RunOffers(users, products, draws, count, now, kept);
      r.Failure? ==> r.error.EmptyPool?
  {
    var step := Attempts(users, products, now);
    forall d, k
      ensures step(d, k).Failure? ==> step(d, k).error.EmptyPool?
    {
      AttemptFails(users, products, d, now, k);
    }
    LoopErrors(step, draws, count, kept);
  }

  /** Validity only looks at product ids and owners. */
  lemma AllValidFrame(users: seq<User>, ps: seq<Product>, qs: seq<Product>, offers: seq<Offer>, now: int)
    requires SameOwnership(ps, qs) && AllValid(users, ps, offers, now)
    ensures AllValid(users, qs, offers, now)
  {
    forall i | 0 <= i < |offers|
      ensures OfferValid(users, qs, offers[i], now)
    {
      var o := offers[i];
      assert OfferValid(users, ps, o, now);
      var a :| 0 <= a < |ps| && ps[a].id == o.targetProductId && ps[a].ownerId == o.targetUserId;
      var b :| 0 <= b < |ps| && ps[b].id == o.offeredProductId && ps[b].ownerId == o.initiatorId;
      assert qs[a].id == o.targetProductId && qs[a].ownerId == o.targetUserId;
      assert qs[b].id == o.offeredProductId && qs[b].ownerId == o.initiatorId;
    }
  }

  /** Whether an attempt succeeds only looks at product ids and owners. */
  lemma {:induction false} SuccessesFrame(users: seq<User>, ps: seq<Product>, qs: seq<Product>, draws: seq<OfferDraw>)
    requires SameOwnership(ps, qs)
    ensures Successes(users, ps, draws) == Successes(users, qs, draws)
    decreases |draws|
  {
    if |draws| > 0 {
      SuccessesUnfold(users, ps, draws);
      SuccessesUnfold(users, qs, draws);
      SuccessesFrame(users, ps, qs, draws[1..]);
      var d := draws[0];
      if |ps| > 0 {
        assert Pick(ps, d.targetDraw).ownerId == Pick(qs, d.targetDraw).ownerId;
        var others := OtherUsers(users, Pick(ps, d.targetDraw).ownerId);
        if |others| > 0 {
          OwnedByFrame(ps, qs, Pick(others, d.initiatorDraw).id);
        }
      }
    }
  }

  /** Without products any attempt fails on the first `pick`. */
  lemma RunOffersWithoutProducts(users: seq<User>, draws: seq<OfferDraw>, count: nat, now: int)
    requires count > 0 && |draws| > 0
    ensures RunOffers(users, [], draws, count, now, 0) == Failure(EmptyPool(ProductsPool))
  {
  }

  /** The offers pass: `count` attempts' worth of offers, ids from 9001. */
  function GenerateOffers(users: seq<User>, products: seq<Product>, draws: seq<OfferDraw>, count: nat, now: int): (r: Result<seq<Offer>, GenError>)
    ensures r.Success? ==> |r.value| == Min(count, Successes(users, products, draws))
    ensures r.Success? ==> NumberedFrom(r.value, OFFER_ID_BASE + 1) && AllValid(users, products, r.value, now)
  {
    RunOffersLength(users, products, draws, count, now, 0);
    RunOffersValid(users, products, draws, count, now, 0);
    RunOffers(users, products, draws, count, now, 0)
  }

  /** Under distinct product ids an offer's products lead back, through the
      first-match lookup, to its two sides. */
  lemma OfferOwners(users: seq<User>, products: seq<Product>, o: Offer, now: int)
    requires OfferValid(users, products, o, now) && Distinct(ProductIds(products))
    ensures OwnerOf(products, o.targetProductId) == Some(o.targetUserId)
    ensures OwnerOf(products, o.offeredProductId) == Some(o.initiatorId)
    ensures o.targetProductId != o.offeredProductId
  {
    var i :| 0 <= i < |products| && products[i].id == o.targetProductId && products[i].ownerId == o.targetUserId;
    var j :| 0 <= j < |products| && products[j].id == o.offeredProductId && products[j].ownerId == o.initiatorId;
    OwnerOfMember(products, i);
    OwnerOfMember(products, j);
  }

  /** The source's fallback guard (`offeredProduct.ownerId === targetUserId`)
      never holds: the offered product belongs to the initiator, who was
      chosen among the users other than the target's owner. */
  lemma OfferFallbackNeverFires(users: seq<User>, products: seq<Product>, d: OfferDraw)
    requires Succeeds(users, products, d)
    ensures var target := Pick(products, d.targetDraw);
      var initiator := Pick(OtherUsers(users, target.ownerId), d.initiatorDraw);
      Pick(OwnedBy(products, initiator.id), d.offeredDraw).ownerId != target.ownerId
  {
  }

  /** Offers whose status is accepted or completed: they seed the threads. */
  predicate AcceptedLike(o: Offer) {
    o.status == Accepted || o.status == Completed
  }

  function AcceptedOffers(offers: seq<Offer>): (r: seq<Offer>)
    ensures forall i :: 0 <= i < |r| ==> r[i] in offers && AcceptedLike(r[i])
    ensures forall o :: o in offers && AcceptedLike(o) ==> o in r
  {
    Filter(offers, AcceptedLike)
  }
}
