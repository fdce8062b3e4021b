/** The threads pass of `createMockDb`: one thread per distinct key of the
    accepted and completed offers, then random pairs (with a product 60%
    of the time) until `threadsCount` threads exist; a key already taken
    skips the candidate. */
module GenThreads {
  import opened Ids
  import opened Wrappers
  import opened Sampling
  import opened Seqs
  import opened Models
  import opened Lookup
  import opened ThreadKeys
  import opened GenOffers

  const SEED_MAX_AGE_DAYS: nat := 7
  const SEED_MAX_UNREAD: nat := 12
  const FILL_MAX_AGE_DAYS: nat := 14
  const FILL_MAX_UNREAD: nat := 20
  const FILL_PRODUCT_PERCENT: nat := 60

  /** The draws of a thread seeded from an offer. */
  datatype SeedDraw = SeedDraw(daysDraw: nat, unreadDraw: nat)

  /** The draws of one iteration of the fill loop. */
  datatype FillDraw = FillDraw(firstDraw: nat, secondDraw: nat, productRoll: nat, productDraw: nat, daysDraw: nat, unreadDraw: nat)

  /** The threads so far and the keys registered in `threadKeySet`. */
  datatype ThreadState = ThreadState(threads: seq<Thread>, keys: seq<string>)

  const EMPTY_STATE := ThreadState([], [])

  /** `t_<n>`. */
  function ThreadIdAt(n: nat): Id {
    Str("t_" + NatToString(n))
  }

  /** The context part of a key: the product id as a string, or `none`. */
  function ContextOf(productId: Option<Id>): string {
    match productId
    case None => NO_PRODUCT
    case Some(p) => Canon(p)
  }

  /** The key an offer is registered under. */
  function PairKey(o: Offer): string {
    ThreadKey(Canon(o.initiatorId), Canon(o.targetUserId), Canon(o.targetProductId))
  }

  /** The key a thread stands for. */
  function KeyOfThread(t: Thread): string
    requires |t.userIds| == 2
  {
    ThreadKey(Canon(t.userIds[0]), Canon(t.userIds[1]), ContextOf(t.productId))
  }

  /** The thread was opened for the offer: same two people, the target product. */
  predicate Covers(t: Thread, o: Offer) {
    && (t.userIds == [o.initiatorId, o.targetUserId] || t.userIds == [o.targetUserId, o.initiatorId])
    && t.productId == Some(o.targetProductId)
  }

  /** What the generator relies on about users and products: ids distinct
      as strings and decimal, owners are users. */
  predicate Refs(users: seq<User>, products: seq<Product>) {
    && CanonDistinct(UserIds(users))
    && CanonDistinct(ProductIds(products))
    && (forall i :: 0 <= i < |users| ==> IsDigits(Canon(users[i].id)))
    && (forall i :: 0 <= i < |products| ==> IsDigits(Canon(products[i].id)))
    && (forall i :: 0 <= i < |products| ==> products[i].ownerId in UserIds(users))
  }

  /** A thread as generated: `t_<n>`, two different known participants,
      the second one the "other" user, a known product if any, no text yet,
      at most 14 days old and 20 unread, registered under its own key. */
  predicate ThreadOk(users: seq<User>, products: seq<Product>, now: int, t: Thread, n: nat, key: string) {
    && t.id == ThreadIdAt(n)
    && |t.userIds| == 2
    && t.userIds[0] != t.userIds[1]
    && t.otherUserId == t.userIds[1]
    && t.userIds[0] in UserIds(users) && t.userIds[1] in UserIds(users)
    && (t.productId.Some? ==> t.productId.value in ProductIds(products))
    && t.lastMessageText == ""
    && now - FILL_MAX_AGE_DAYS * DAY_MS <= t.lastMessageTime <= now
    && t.unreadCount <= FILL_MAX_UNREAD
    && key == KeyOfThread(t)
  }

  predicate StateOk(users: seq<User>, products: seq<Product>, now: int, st: ThreadState) {
    && |st.threads| == |st.keys|
    && Distinct(st.keys)
    && forall i :: 0 <= i < |st.threads| ==> ThreadOk(users, products, now, st.threads[i], i + 1, st.keys[i])
  }

  /** `st` extends `st0` by appending threads together with their keys. */
  predicate Extends(st0: ThreadState, st: ThreadState) {
    && st0.threads <= st.threads
    && st0.keys <= st.keys
    && |st.threads| - |st0.threads| == |st.keys| - |st0.keys|
  }

  /** `addThreadFromPair`: nothing when the key is taken, otherwise a new
      thread between initiator and target about the target product; the
      target user must be found (the source asserts it with `!`). */
  function SeedStep(users: seq<User>, products: seq<Product>, st: ThreadState, o: Offer, d: SeedDraw, now: int): (r: Result<ThreadState, GenError>)
    ensures r.Success? ==> Extends(st, r.value) && |r.value.keys| <= |st.keys| + 1
    ensures r.Success? ==> PairKey(o) in r.value.keys
    ensures r.Success? && PairKey(o) in st.keys ==> r.value == st
  {
    var key := PairKey(o);
    if key in st.keys then Success(st)
    else
      match FindByCanon(users, UserId, Canon(o.targetUserId))
      case None => Failure(UnknownUser(Canon(o.targetUserId)))
      case Some(other) =>
        var product := FindByCanon(products, ProductId, Canon(o.targetProductId));
        var days := Between(0, SEED_MAX_AGE_DAYS, d.daysDraw);
        DaysAgoWindow(now, days, FILL_MAX_AGE_DAYS);
        var t := Thread(ThreadIdAt(|st.threads| + 1), [o.initiatorId, o.targetUserId], other.id, "",
          DaysAgo(now, days),
          Between(0, SEED_MAX_UNREAD, d.unreadDraw) as nat,
          if product.Some? then Some(product.value.id) else None);
        Success(ThreadState(st.threads + [t], st.keys + [key]))
  }

  /** The seeding loop over the accepted pairs, in order. */
  function SeedThreads(users: seq<User>, products: seq<Product>, pairs: seq<Offer>, draws: seq<SeedDraw>, now: int, st: ThreadState): (r: Result<ThreadState, GenError>)
    requires |draws| >= |pairs|
    ensures r.Success? ==> Extends(st, r.value) && |r.value.keys| <= |st.keys| + |pairs|
    ensures r.Success? ==> forall i :: 0 <= i < |pairs| ==> PairKey(pairs[i]) in r.value.keys
    decreases |pairs|
  {
    if |pairs| == 0 then Success(st)
    else
      match SeedStep(users, products, st, pairs[0], draws[0], now)
      case Failure(e) => Failure(e)
      case Success(st1) =>
        var r := SeedThreads(users, products, pairs[1..], draws[1..], now, st1);
        assert r.Success? ==> forall i :: 1 <= i < |pairs| ==> pairs[i] == pairs[1..][i - 1];
        r
  }

  /** One iteration of the fill loop. */
  function FillStep(users: seq<User>, products: seq<Product>, st: ThreadState, d: FillDraw, now: int): (r: Result<ThreadState, GenError>)
    ensures r.Success? ==> Extends(st, r.value) && |r.value.keys| <= |st.keys| + 1
    ensures |users| == 0 ==> r == Failure(EmptyPool(UsersPool))
  {
    if |users| == 0 then Failure(EmptyPool(UsersPool))
    else
      var u1 := Pick(users, d.firstDraw);
      var others := OtherUsers(users, u1.id);
      if |others| == 0 then Failure(EmptyPool(OtherUsersPool))
      else
        var u2 := Pick(others, d.secondDraw);
        var withProduct := Chance(FILL_PRODUCT_PERCENT, d.productRoll);
        if withProduct && |products| == 0 then Failure(EmptyPool(ProductsPool))
        else
          var productId := if withProduct then Some(Pick(products, d.productDraw).id) else None;
          var key := ThreadKey(Canon(u1.id), Canon(u2.id), ContextOf(productId));
          if key in st.keys then Success(st)
          else
            var days := Between(0, FILL_MAX_AGE_DAYS, d.daysDraw);
            DaysAgoWindow(now, days, FILL_MAX_AGE_DAYS);
            var t := Thread(ThreadIdAt(|st.threads| + 1), [u1.id, u2.id], u2.id, "",
              DaysAgo(now, days),
              Between(0, FILL_MAX_UNREAD, d.unreadDraw) as nat,
              productId);
            Success(ThreadState(st.threads + [t], st.keys + [key]))
  }

  function Max(a: nat, b: nat): nat {
    if a < b then b else a
  }

  /** `while (threads.length < threadsCount)` over the draws; also returns
      how many draws were consumed. When the draws run out first the model
      stops where the source would keep looping. */
  function FillThreads(users: seq<User>, products: seq<Product>, draws: seq<FillDraw>, count: nat, now: int, st: ThreadState): (r: Result<(ThreadState, nat), GenError>)
    requires |st.threads| == |st.keys|
    ensures r.Success? ==> Extends(st, r.value.0)
    ensures r.Success? ==> r.value.1 <= |draws|
    ensures r.Success? ==> |r.value.0.threads| <= Max(count, |st.threads|)
    ensures r.Success? && |r.value.0.threads| < count ==> r.value.1 == |draws|
    ensures r.Success? && r.value.1 < |draws| ==> |r.value.0.threads| == Max(count, |st.threads|)
    decreases |draws|
  {
    if |st.threads| >= count || |draws| == 0 then Success((st, 0))
    else
      match FillStep(users, products, st, draws[0], now)
      case Failure(e) => Failure(e)
      case Success(st1) =>
        match FillThreads(users, products, draws[1..], count, now, st1)
        case Failure(e) => Failure(e)
        case Success(res) => Success((res.0, res.1 + 1))
  }

  /** The fill loop throws only by drawing from an empty pool, and never
      with two users of distinct ids and some product. */
  lemma {:induction false} FillThreadsErrors(users: seq<User>, products: seq<Product>, draws: seq<FillDraw>, count: nat, now: int, st: ThreadState)
    requires |st.threads| == |st.keys|
    ensures var r := FillThreads(users, products, draws, count, now, st);
      && (r.Failure? ==> r.error.EmptyPool?)
      && (|users| >= 2 && Distinct(UserIds(users)) && |products| > 0 ==> r.Success?)
    decreases |draws|
  {
    if |st.threads| < count && |draws| > 0 {
      if |users| >= 2 && Distinct(UserIds(users)) {
        OtherUsersNonEmpty(users, Pick(users, draws[0].firstDraw).id);
      }
      var s1 := FillStep(users, products, st, draws[0], now);
      if s1.Success? {
        FillThreadsErrors(users, products, draws[1..], count, now, s1.value);
      }
    }
  }

  /** Filling from no thread at all, with a thread asked for and a draw
      to spend, yields a thread: the first key is never taken. */
  lemma FillThreadsStarts(users: seq<User>, products: seq<Product>, draws: seq<FillDraw>, count: nat, now: int)
    requires count > 0 && |draws| > 0
    ensures var r := FillThreads(users, products, draws, count, now, EMPTY_STATE);
      r.Success? ==> |r.value.0.threads| > 0
  {
    var r := FillThreads(users, products, draws, count, now, EMPTY_STATE);
    if r.Success? {
      var s1 := FillStep(users, products, EMPTY_STATE, draws[0], now);
      assert s1.Success?;
      assert |s1.value.threads| == 1;
      var rest := FillThreads(users, products, draws[1..], count, now, s1.value);
      assert rest.Success? && r.value.0 == rest.value.0;
    }
  }

  /** The threads pass: seed from the accepted and completed offers, then
      fill; `seedDraws` has one entry per offer. Also returns how many fill
      draws were consumed. */
  function GenerateThreads(users: seq<User>, products: seq<Product>, offers: seq<Offer>,
                           seedDraws: seq<SeedDraw>, fillDraws: seq<FillDraw>, count: nat, now: int): (r: Result<(ThreadState, nat), GenError>)
    requires |seedDraws| >= |offers|
    ensures r.Success? ==> |r.value.0.threads| == |r.value.0.keys| && r.value.1 <= |fillDraws|
    ensures r.Success? ==> forall o :: o in offers && AcceptedLike(o) ==> PairKey(o) in r.value.0.keys
  {
    var pairs := AcceptedOffers(offers);
    match SeedThreads(users, products, pairs, seedDraws, now, EMPTY_STATE)
    case Failure(e) => Failure(e)
    case Success(seeded) =>
      match FillThreads(users, products, fillDraws, count, now, seeded)
      case Failure(e) => Failure(e)
      case Success(res) =>
        assert forall o :: o in offers && AcceptedLike(o) ==> o in pairs;
        assert forall k :: k in seeded.keys ==> k in res.0.keys;
        Success(res)
  }

  /** The distinct keys of the accepted and completed offers. */
  function AcceptedKeys(offers: seq<Offer>): set<string> {
    set o | o in offers && AcceptedLike(o) :: PairKey(o)
  }

  lemma NoProductIsNotDecimal()
    ensures !IsDigits(NO_PRODUCT)
  {
    assert !IsDigit(NO_PRODUCT[0]);
  }

  /** Appending a thread that is fine in its place, under a fresh key, keeps the state fine. */
  lemma AppendOk(users: seq<User>, products: seq<Product>, now: int, st: ThreadState, t: Thread, key: string)
    requires StateOk(users, products, now, st)
    requires key !in st.keys
    requires ThreadOk(users, products, now, t, |st.threads| + 1, key)
    ensures StateOk(users, products, now, ThreadState(st.threads + [t], st.keys + [key]))
  {
    var st' := ThreadState(st.threads + [t], st.keys + [key]);
    forall i | 0 <= i < |st'.threads|
      ensures ThreadOk(users, products, now, st'.threads[i], i + 1, st'.keys[i])
    {
      if i < |st.threads| {
        assert st'.threads[i] == st.threads[i] && st'.keys[i] == st.keys[i];
      }
    }
  }

  /** An id in a collection whose ids are distinct as strings leads the
      string lookup to the member carrying that very id. */
  lemma FoundIsSame<T>(xs: seq<T>, id: T -> Id, x: Id)
    requires CanonDistinct(IdsOf(xs, id)) && x in IdsOf(xs, id)
    ensures FindByCanon(xs, id, Canon(x)).Some?
    ensures id(FindByCanon(xs, id, Canon(x)).value) == x
  {
    var j :| 0 <= j < |xs| && IdsOf(xs, id)[j] == x;
    assert Canon(id(xs[j])) == Canon(x);
    var y := FindByCanon(xs, id, Canon(x)).value;
    var k :| 0 <= k < |xs| && xs[k] == y;
    assert IdsOf(xs, id)[k] == id(y);
    CanonEqInside(IdsOf(xs, id), id(y), x);
  }

  /** The people and product of a valid offer are known ones. */
  lemma OfferRefs(users: seq<User>, products: seq<Product>, o: Offer, now: int)
    requires Refs(users, products) && OfferValid(users, products, o, now)
    ensures o.initiatorId in UserIds(users) && o.targetUserId in UserIds(users)
    ensures o.targetProductId in ProductIds(products)
  {
    var i :| 0 <= i < |products| && products[i].id == o.targetProductId && products[i].ownerId == o.targetUserId;
    assert ProductIds(products)[i] == o.targetProductId;
  }

  /** Seeding from a valid offer never fails and keeps the state fine. */
  lemma SeedStepOk(users: seq<User>, products: seq<Product>, st: ThreadState, o: Offer, d: SeedDraw, now: int)
    requires Refs(users, products) && OfferValid(users, products, o, now)
    requires StateOk(users, products, now, st)
    ensures SeedStep(users, products, st, o, d, now).Success?
    ensures StateOk(users, products, now, SeedStep(users, products, st, o, d, now).value)
  {
    OfferRefs(users, products, o, now);
    FoundIsSame(users, UserId, o.targetUserId);
    FoundIsSame(products, ProductId, o.targetProductId);
    var r := SeedStep(users, products, st, o, d, now);
    if PairKey(o) !in st.keys {
      var t := r.value.threads[|st.threads|];
      assert r.value == ThreadState(st.threads + [t], st.keys + [PairKey(o)]);
      AppendOk(users, products, now, st, t, PairKey(o));
    }
  }

  /** A fill iteration that succeeds keeps the state fine. */
  lemma FillStepOk(users: seq<User>, products: seq<Product>, st: ThreadState, d: FillDraw, now: int)
    requires StateOk(users, products, now, st)
    ensures var r := FillStep(users, products, st, d, now);
      r.Success? ==> StateOk(users, products, now, r.value)
  {
    var r := FillStep(users, products, st, d, now);
    if r.Success? && |r.value.threads| > |st.threads| {
      var u1 := Pick(users, d.firstDraw);
      var u2 := Pick(OtherUsers(users, u1.id), d.secondDraw);
      var j1 :| 0 <= j1 < |users| && users[j1] == u1;
      var j2 :| 0 <= j2 < |users| && users[j2] == u2;
      assert UserIds(users)[j1] == u1.id && UserIds(users)[j2] == u2.id;
      if Chance(FILL_PRODUCT_PERCENT, d.productRoll) {
        var p := Pick(products, d.productDraw);
        var k :| 0 <= k < |products| && products[k] == p;
        assert ProductIds(products)[k] == p.id;
      }
      var t := r.value.threads[|st.threads|];
      var key := r.value.keys[|st.keys|];
      assert r.value == ThreadState(st.threads + [t], st.keys + [key]);
      AppendOk(users, products, now, st, t, key);
    }
  }

  lemma {:induction false} SeedThreadsOk(users: seq<User>, products: seq<Product>, pairs: seq<Offer>, draws: seq<SeedDraw>, now: int, st: ThreadState)
    requires |draws| >= |pairs|
    requires Refs(users, products) && AllValid(users, products, pairs, now)
    requires StateOk(users, products, now, st)
    ensures SeedThreads(users, products, pairs, draws, now, st).Success?
    ensures StateOk(users, products, now, SeedThreads(users, products, pairs, draws, now, st).value)
    decreases |pairs|
  {
    if |pairs| > 0 {
      SeedStepOk(users, products, st, pairs[0], draws[0], now);
      var st1 := SeedStep(users, products, st, pairs[0], draws[0], now).value;
      assert AllValid(users, products, pairs[1..], now) by {
        forall i | 0 <= i < |pairs[1..]|
          ensures OfferValid(users, products, pairs[1..][i], now)
        {
          assert pairs[1..][i] == pairs[i + 1];
        }
      }
      SeedThreadsOk(users, products, pairs[1..], draws[1..], now, st1);
    }
  }

  lemma {:induction false} FillThreadsOk(users: seq<User>, products: seq<Product>, draws: seq<FillDraw>, count: nat, now: int, st: ThreadState)
    requires StateOk(users, products, now, st)
    ensures var r := FillThreads(users, products, draws, count, now, st);
      r.Success? ==> StateOk(users, products, now, r.value.0)
    decreases |draws|
  {
    if |st.threads| < count && |draws| > 0 {
      FillStepOk(users, products, st, draws[0], now);
      var s1 := FillStep(users, products, st, draws[0], now);
      if s1.Success? {
        FillThreadsOk(users, products, draws[1..], count, now, s1.value);
      }
    }
  }

  /** A key context equal to a known product's id string names that product. */
  lemma ContextMatches(products: seq<Product>, pid: Option<Id>, tp: Id)
    requires CanonDistinct(ProductIds(products))
    requires pid.Some? ==> pid.value in ProductIds(products)
    requires tp in ProductIds(products) && IsDigits(Canon(tp))
    requires ContextOf(pid) == Canon(tp)
    ensures pid == Some(tp)
  {
    NoProductIsNotDecimal();
    CanonEqInside(ProductIds(products), pid.value, tp);
  }

  /** Known users whose id strings agree as unordered pairs are the same pair. */
  lemma PairMatches(users: seq<User>, a: Id, b: Id, x: Id, y: Id)
    requires CanonDistinct(UserIds(users))
    requires a in UserIds(users) && b in UserIds(users) && x in UserIds(users) && y in UserIds(users)
    requires (Canon(a) == Canon(x) && Canon(b) == Canon(y)) || (Canon(a) == Canon(y) && Canon(b) == Canon(x))
    ensures [a, b] == [x, y] || [a, b] == [y, x]
  {
    CanonEqInside(UserIds(users), a, x);
    CanonEqInside(UserIds(users), a, y);
    CanonEqInside(UserIds(users), b, x);
    CanonEqInside(UserIds(users), b, y);
  }

  /** A registered key of a valid offer leads to a thread covering it. */
  lemma CoverFromKey(users: seq<User>, products: seq<Product>, now: int, st: ThreadState, o: Offer)
    requires Refs(users, products) && OfferValid(users, products, o, now)
    requires StateOk(users, products, now, st)
    requires PairKey(o) in st.keys
    ensures exists i :: 0 <= i < |st.threads| && Covers(st.threads[i], o)
  {
    OfferRefs(users, products, o, now);
    var i :| 0 <= i < |st.keys| && st.keys[i] == PairKey(o);
    assert ThreadOk(users, products, now, st.threads[i], i + 1, st.keys[i]);
    CoverFromThread(users, products, st.threads[i], o);
  }

  lemma CoverFromThread(users: seq<User>, products: seq<Product>, t: Thread, o: Offer)
    requires Refs(users, products)
    requires o.initiatorId in UserIds(users) && o.targetUserId in UserIds(users)
    requires o.targetProductId in ProductIds(products)
    requires |t.userIds| == 2 && t.userIds[0] in UserIds(users) && t.userIds[1] in UserIds(users)
    requires t.productId.Some? ==> t.productId.value in ProductIds(products)
    requires KeyOfThread(t) == PairKey(o)
    ensures Covers(t, o)
  {
    var a, b := t.userIds[0], t.userIds[1];
    DigitIdsInside(users, a);
    DigitIdsInside(users, b);
    DigitIdsInside(users, o.initiatorId);
    DigitIdsInside(users, o.targetUserId);
    DigitProductIdsInside(products, o.targetProductId);
    ContextSeparatorFree(products, t.productId);
    ThreadKeyInjective(Canon(a), Canon(b), ContextOf(t.productId),
      Canon(o.initiatorId), Canon(o.targetUserId), Canon(o.targetProductId));
    ContextMatches(products, t.productId, o.targetProductId);
    PairMatches(users, a, b, o.initiatorId, o.targetUserId);
    assert t.userIds == [a, b];
  }

  lemma ContextSeparatorFree(products: seq<Product>, pid: Option<Id>)
    requires forall i :: 0 <= i < |products| ==> IsDigits(Canon(products[i].id))
    requires pid.Some? ==> pid.value in ProductIds(products)
    ensures SeparatorFree(ContextOf(pid))
  {
    match pid
    case None =>
    case Some(p) => DigitProductIdsInside(products, p);
  }

  lemma DigitIdsInside(users: seq<User>, id: Id)
    requires forall i :: 0 <= i < |users| ==> IsDigits(Canon(users[i].id))
    requires id in UserIds(users)
    ensures IsDigits(Canon(id)) && SeparatorFree(Canon(id))
  {
    var j :| 0 <= j < |users| && UserIds(users)[j] == id;
    DigitsAreSeparatorFree(Canon(id));
  }

  lemma DigitProductIdsInside(products: seq<Product>, id: Id)
    requires forall i :: 0 <= i < |products| ==> IsDigits(Canon(products[i].id))
    requires id in ProductIds(products)
    ensures IsDigits(Canon(id)) && SeparatorFree(Canon(id))
  {
    var j :| 0 <= j < |products| && ProductIds(products)[j] == id;
    DigitsAreSeparatorFree(Canon(id));
  }

  /** Seeding registers exactly the pair keys, once each. */
  lemma {:induction false} SeedKeys(users: seq<User>, products: seq<Product>, pairs: seq<Offer>, draws: seq<SeedDraw>, now: int, st: ThreadState)
    requires |draws| >= |pairs| && Distinct(st.keys)
    ensures var r := SeedThreads(users, products, pairs, draws, now, st);
      r.Success? ==>
        && Distinct(r.value.keys)
        && (set k | k in r.value.keys) == (set k | k in st.keys) + (set i | 0 <= i < |pairs| :: PairKey(pairs[i]))
    decreases |pairs|
  {
    if |pairs| > 0 {
      var s1 := SeedStep(users, products, st, pairs[0], draws[0], now);
      if s1.Success? {
        var st1 := s1.value;
        assert Distinct(st1.keys);
        assert (set k | k in st1.keys) == (set k | k in st.keys) + {PairKey(pairs[0])};
        SeedKeys(users, products, pairs[1..], draws[1..], now, st1);
        PairKeysSplit(pairs);
      }
    }
  }

  lemma PairKeysSplit(pairs: seq<Offer>)
    requires |pairs| > 0
    ensures (set i | 0 <= i < |pairs| :: PairKey(pairs[i])) ==
      {PairKey(pairs[0])} + (set i | 0 <= i < |pairs[1..]| :: PairKey(pairs[1..][i]))
  {
    forall i | 0 <= i < |pairs[1..]|
      ensures pairs[1..][i] == pairs[i + 1]
    {
    }
    forall i | 1 <= i < |pairs|
      ensures PairKey(pairs[i]) == PairKey(pairs[1..][i - 1])
    {
    }
  }

  /** Generated threads are well formed, and every accepted or completed
      offer has a thread between its two people about its target product. */
  lemma GenerateThreadsOk(users: seq<User>, products: seq<Product>, offers: seq<Offer>,
                          seedDraws: seq<SeedDraw>, fillDraws: seq<FillDraw>, count: nat, now: int)
    requires |seedDraws| >= |offers|
    requires Refs(users, products) && AllValid(users, products, offers, now)
    ensures var r := GenerateThreads(users, products, offers, seedDraws, fillDraws, count, now);
      r.Success? ==>
        && StateOk(users, products, now, r.value.0)
        && forall o :: o in offers && AcceptedLike(o) ==>
             exists i :: 0 <= i < |r.value.0.threads| && Covers(r.value.0.threads[i], o)
  {
    var pairs := AcceptedOffers(offers);
    assert AllValid(users, products, pairs, now) by {
      forall i | 0 <= i < |pairs|
        ensures OfferValid(users, products, pairs[i], now)
      {
        var j :| 0 <= j < |offers| && offers[j] == pairs[i];
      }
    }
    SeedThreadsOk(users, products, pairs, seedDraws, now, EMPTY_STATE);
    var seeded := SeedThreads(users, products, pairs, seedDraws, now, EMPTY_STATE).value;
    FillThreadsOk(users, products, fillDraws, count, now, seeded);
    var r := GenerateThreads(users, products, offers, seedDraws, fillDraws, count, now);
    if r.Success? {
      forall o | o in offers && AcceptedLike(o)
        ensures exists i :: 0 <= i < |r.value.0.threads| && Covers(r.value.0.threads[i], o)
      {
        var j :| 0 <= j < |offers| && offers[j] == o;
        CoverFromKey(users, products, now, r.value.0, o);
      }
    }
  }

  /** The pass yields one thread per distinct accepted key, topped up to
      `threadsCount`; fewer only when the fill draws ran out. */
  lemma GenerateThreadsCount(users: seq<User>, products: seq<Product>, offers: seq<Offer>,
                             seedDraws: seq<SeedDraw>, fillDraws: seq<FillDraw>, count: nat, now: int)
    requires |seedDraws| >= |offers|
    ensures var r := GenerateThreads(users, products, offers, seedDraws, fillDraws, count, now);
      r.Success? ==>
        && |AcceptedKeys(offers)| <= |r.value.0.threads| <= Max(count, |AcceptedKeys(offers)|)
        && (|r.value.0.threads| < count ==> r.value.1 == |fillDraws|)
        && (r.value.1 < |fillDraws| ==> |r.value.0.threads| == Max(count, |AcceptedKeys(offers)|))
  {
    var r := GenerateThreads(users, products, offers, seedDraws, fillDraws, count, now);
    var pairs := AcceptedOffers(offers);
    var s := SeedThreads(users, products, pairs, seedDraws, now, EMPTY_STATE);
    if r.Success? {
      assert s.Success?;
      var seeded := s.value;
      SeedKeys(users, products, pairs, seedDraws, now, EMPTY_STATE);
      PairKeysAreAcceptedKeys(offers);
      DistinctCardinality(seeded.keys);
      assert |seeded.threads| == |AcceptedKeys(offers)|;
      var f := FillThreads(users, products, fillDraws, count, now, seeded);
      assert f.Success? && r == f;
      assert Extends(seeded, f.value.0);
    }
  }

  lemma PairKeysAreAcceptedKeys(offers: seq<Offer>)
    ensures var pairs := AcceptedOffers(offers);
      (set i | 0 <= i < |pairs| :: PairKey(pairs[i])) == AcceptedKeys(offers)
  {
    var pairs := AcceptedOffers(offers);
    forall k | k in AcceptedKeys(offers)
      ensures k in (set i | 0 <= i < |pairs| :: PairKey(pairs[i]))
    {
      var o :| o in offers && AcceptedLike(o) && PairKey(o) == k;
      var i :| 0 <= i < |pairs| && pairs[i] == o;
    }
  }
}
