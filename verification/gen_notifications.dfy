/** The notifications pass of `createMockDb`: a type, a user and, 55% of
    the time, a product are drawn; a `product_viewed` notification about a
    product adds one to that product's view count. */
module GenNotifications {
  import opened Ids
  import opened Wrappers
  import opened Sampling
  import opened Seqs
  import opened Models
  import opened Lookup

  const NOTIFICATION_TYPES: seq<NotificationType> :=
    [SwapOffer, SwapAccepted, SwapRejected, ProductViewed, NewMessage, FavoriteUpdated]
  const NOTIFICATION_PRODUCT_PERCENT: nat := 55
  const NOTIFICATION_READ_PERCENT: nat := 60
  const NOTIFICATION_MAX_AGE_DAYS: nat := 10

  datatype NotificationDraw = NotificationDraw(typeDraw: nat, userDraw: nat, productRoll: nat, productDraw: nat, daysDraw: nat, readRoll: nat)

  /** `n_<n>`. */
  function NotificationIdAt(n: nat): Id {
    Str("n_" + NatToString(n))
  }

  /** The notification is titled after its type, addressed to a user,
      about a product if any, and at most 10 days old. */
  predicate NotificationOk(users: seq<User>, products: seq<Product>, x: Notification, now: int) {
    && x.title == TitleOf(x.kind)
    && x.userId in UserIds(users)
    && (x.productId.Some? ==> x.productId.value in ProductIds(products))
    && now - NOTIFICATION_MAX_AGE_DAYS * DAY_MS <= x.time <= now
  }

  predicate NotificationsOk(users: seq<User>, products: seq<Product>, xs: seq<Notification>, now: int) {
    forall i :: 0 <= i < |xs| ==> NotificationOk(users, products, xs[i], now)
  }

  predicate NumberedFrom(xs: seq<Notification>, first: nat) {
    forall i :: 0 <= i < |xs| ==> xs[i].id == NotificationIdAt(first + i)
  }

  /** `ps` is `products` with only view counts changed. */
  predicate OnlyViewCounts(products: seq<Product>, ps: seq<Product>) {
    && |ps| == |products|
    && forall k :: 0 <= k < |ps| ==> ps[k] == products[k].(viewCount := ps[k].viewCount)
  }

  /** One iteration; returns the notification and the products after the
      view-count bump. */
  function NotificationStep(users: seq<User>, products: seq<Product>, d: NotificationDraw, now: int, n: nat): Result<(Notification, seq<Product>), GenError>
  {
    var kind := Pick(NOTIFICATION_TYPES, d.typeDraw);
    if |users| == 0 then Failure(EmptyPool(UsersPool))
    else
      var user := Pick(users, d.userDraw);
      var withProduct := Chance(NOTIFICATION_PRODUCT_PERCENT, d.productRoll);
      if withProduct && |products| == 0 then Failure(EmptyPool(ProductsPool))
      else
        var k := if withProduct then PickIndex(|products|, d.productDraw) else 0;
        var ps := if withProduct && kind == ProductViewed
          then products[k := products[k].(viewCount := products[k].viewCount + 1)]
          else products;
        var days := Between(0, NOTIFICATION_MAX_AGE_DAYS, d.daysDraw);
        DaysAgoWindow(now, days, NOTIFICATION_MAX_AGE_DAYS);
        var x := Notification(NotificationIdAt(n), kind, TitleOf(kind),
          DaysAgo(now, days),
          Chance(NOTIFICATION_READ_PERCENT, d.readRoll), user.id,
          if withProduct then Some(products[k].id) else None);
        Success((x, ps))
  }

  /** A step fails exactly when a pool it draws from is empty; otherwise
      it numbers the notification, takes the drawn type and changes at most
      view counts. */
  lemma StepFacts(users: seq<User>, products: seq<Product>, d: NotificationDraw, now: int, n: nat)
    ensures var r := NotificationStep(users, products, d, now, n);
      && (|users| == 0 ==> r == Failure(EmptyPool(UsersPool)))
      && (|users| > 0 && Chance(NOTIFICATION_PRODUCT_PERCENT, d.productRoll) && |products| == 0 ==>
            r == Failure(EmptyPool(ProductsPool)))
      && (r.Failure? ==> |users| == 0 || |products| == 0)
      && (r.Success? ==>
            && r.value.0.id == NotificationIdAt(n)
            && r.value.0.kind == Pick(NOTIFICATION_TYPES, d.typeDraw)
            && OnlyViewCounts(products, r.value.1))
  {
  }

  /** Every notification a step makes is fine. */
  lemma StepOk(users: seq<User>, products: seq<Product>, d: NotificationDraw, now: int, n: nat)
    ensures var r := NotificationStep(users, products, d, now, n);
      r.Success? ==> NotificationOk(users, products, r.value.0, now)
  {
    var r := NotificationStep(users, products, d, now, n);
    if r.Success? {
      var user := Pick(users, d.userDraw);
      var j :| 0 <= j < |users| && users[j] == user;
      assert UserIds(users)[j] == user.id;
      if Chance(NOTIFICATION_PRODUCT_PERCENT, d.productRoll) {
        var k := PickIndex(|products|, d.productDraw);
        assert ProductIds(products)[k] == products[k].id;
      }
    }
  }

  /** The notifications loop from notification number `n` on, threading
      the products through. */
  function RunNotifications(users: seq<User>, products: seq<Product>, draws: seq<NotificationDraw>, now: int, n: nat): (r: Result<(seq<Notification>, seq<Product>), GenError>)
    ensures r.Success? ==> |r.value.0| == |draws| && NumberedFrom(r.value.0, n)
    ensures r.Success? ==> OnlyViewCounts(products, r.value.1)
    decreases |draws|
  {
    if |draws| == 0 then Success(([], products))
    else
      match NotificationStep(users, products, draws[0], now, n)
      case Failure(e) => Failure(e)
      case Success(step) =>
        StepFacts(users, products, draws[0], now, n);
        match RunNotifications(users, step.1, draws[1..], now, n + 1)
        case Failure(e) => Failure(e)
        case Success(rest) =>
          NumberedCons(step.0, rest.0, n);
          OnlyViewCountsTrans(products, step.1, rest.1);
          Success(([step.0] + rest.0, rest.1))
  }

  lemma NumberedCons(x: Notification, rest: seq<Notification>, n: nat)
    requires x.id == NotificationIdAt(n) && NumberedFrom(rest, n + 1)
    ensures NumberedFrom([x] + rest, n)
  {
    assert forall i :: 1 <= i < |rest| + 1 ==> ([x] + rest)[i] == rest[i - 1];
  }

  lemma OnlyViewCountsTrans(a: seq<Product>, b: seq<Product>, c: seq<Product>)
    requires OnlyViewCounts(a, b) && OnlyViewCounts(b, c)
    ensures OnlyViewCounts(a, c)
  {
    forall k | 0 <= k < |c|
      ensures c[k] == a[k].(viewCount := c[k].viewCount)
    {
      assert b[k] == a[k].(viewCount := b[k].viewCount);
      assert c[k] == b[k].(viewCount := c[k].viewCount);
    }
  }

  /** The notifications pass: one notification per draw, ids `n_1`, `n_2`, ... */
  function GenerateNotifications(users: seq<User>, products: seq<Product>, draws: seq<NotificationDraw>, now: int): (r: Result<(seq<Notification>, seq<Product>), GenError>)
    ensures r.Success? ==> |r.value.0| == |draws| && NumberedFrom(r.value.0, 1)
    ensures r.Success? ==> OnlyViewCounts(products, r.value.1)
  {
    RunNotifications(users, products, draws, now, 1)
  }

  /** A step throws only by drawing from an empty pool. */
  lemma StepErrors(users: seq<User>, products: seq<Product>, d: NotificationDraw, now: int, n: nat)
    ensures var r := NotificationStep(users, products, d, now, n);
      r.Failure? ==> r.error.EmptyPool?
  {
  }

  /** The loop throws only by drawing from an empty pool, and never when
      there are users and products. */
  lemma {:induction false} RunNotificationsErrors(users: seq<User>, products: seq<Product>, draws: seq<NotificationDraw>, now: int, n: nat)
    ensures var r := RunNotifications(users, products, draws, now, n);
      && (r.Failure? ==> r.error.EmptyPool?)
      && (|users| > 0 && |products| > 0 ==> r.Success?)
    decreases |draws|
  {
    if |draws| > 0 {
      StepFacts(users, products, draws[0], now, n);
      StepErrors(users, products, draws[0], now, n);
      var step := NotificationStep(users, products, draws[0], now, n);
      if step.Success? {
        RunNotificationsErrors(users, step.value.1, draws[1..], now, n + 1);
      }
    }
  }

  lemma {:induction false} RunNotificationsOk(users: seq<User>, products: seq<Product>, draws: seq<NotificationDraw>, now: int, n: nat)
    ensures var r := RunNotifications(users, products, draws, now, n);
      r.Success? ==> NotificationsOk(users, products, r.value.0, now)
    decreases |draws|
  {
    var r := RunNotifications(users, products, draws, now, n);
    if |draws| > 0 && r.Success? {
      var step := NotificationStep(users, products, draws[0], now, n).value;
      StepOk(users, products, draws[0], now, n);
      RunNotificationsOk(users, step.1, draws[1..], now, n + 1);
      var rest := RunNotifications(users, step.1, draws[1..], now, n + 1).value;
      assert r.value.0 == [step.0] + rest.0;
      assert ProductIds(step.1) == ProductIds(products);
      forall i | 0 <= i < |r.value.0|
        ensures NotificationOk(users, products, r.value.0[i], now)
      {
        if i > 0 {
          assert r.value.0[i] == rest.0[i - 1];
        }
      }
    }
  }

  /** Notifications of type `product_viewed` about product `id`. */
  function ViewedCount(xs: seq<Notification>, id: Id): nat {
    Count(xs, (x: Notification) => x.kind == ProductViewed && x.productId == Some(id))
  }

  lemma ViewedCountUnfold(xs: seq<Notification>, id: Id)
    requires |xs| > 0
    ensures ViewedCount(xs, id) ==
      (if xs[0].kind == ProductViewed && xs[0].productId == Some(id) then 1 else 0) + ViewedCount(xs[1..], id)
  {
  }

  /** With distinct product ids one step bumps exactly the viewed product. */
  lemma StepViewCount(users: seq<User>, products: seq<Product>, d: NotificationDraw, now: int, n: nat, k: nat)
    requires Distinct(ProductIds(products)) && k < |products|
    ensures var r := NotificationStep(users, products, d, now, n);
      r.Success? ==>
        r.value.1[k].viewCount == products[k].viewCount +
          (if r.value.0.kind == ProductViewed && r.value.0.productId == Some(products[k].id) then 1 else 0)
  {
    var r := NotificationStep(users, products, d, now, n);
    StepFacts(users, products, d, now, n);
    if r.Success? && Chance(NOTIFICATION_PRODUCT_PERCENT, d.productRoll) {
      var m := PickIndex(|products|, d.productDraw);
      assert ProductIds(products)[m] == products[m].id && ProductIds(products)[k] == products[k].id;
    }
  }

  /** Every product ends with its generated view count plus the number of
      `product_viewed` notifications about it. */
  lemma {:induction false} ViewCounts(users: seq<User>, products: seq<Product>, draws: seq<NotificationDraw>, now: int, n: nat)
    requires Distinct(ProductIds(products))
    ensures var r := RunNotifications(users, products, draws, now, n);
      r.Success? ==> forall k :: 0 <= k < |products| ==>
        r.value.1[k].viewCount == products[k].viewCount + ViewedCount(r.value.0, products[k].id)
    decreases |draws|
  {
    var r := RunNotifications(users, products, draws, now, n);
    if |draws| > 0 && r.Success? {
      var step := NotificationStep(users, products, draws[0], now, n).value;
      assert ProductIds(step.1) == ProductIds(products);
      ViewCounts(users, step.1, draws[1..], now, n + 1);
      var rest := RunNotifications(users, step.1, draws[1..], now, n + 1).value;
      assert r.value.0 == [step.0] + rest.0 && r.value.1 == rest.1;
      forall k | 0 <= k < |products|
        ensures r.value.1[k].viewCount == products[k].viewCount + ViewedCount(r.value.0, products[k].id)
      {
        StepViewCount(users, products, draws[0], now, n, k);
        ViewedCountUnfold(r.value.0, products[k].id);
        assert r.value.0[1..] == rest.0;
        assert step.1[k].id == products[k].id;
      }
    }
  }
}
