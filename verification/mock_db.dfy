/** `createMockDb`: the stages in the source's order, each fed with the
    collections the previous ones built and with its own random draws.
    The pass throws where a `pick` meets an empty pool; that is the
    `Failure` here. */
module MockDb {
  import opened Ids
  import opened Wrappers
  import opened Sampling
  import opened Models
  import opened Lookup
  import opened Trust
  import opened GenUsers
  import opened GenProducts
  import opened Consistency
  import F = GenFavorites
  import O = GenOffers
  import T = GenThreads
  import M = GenMessages
  import Rc = Reconcile
  import N = GenNotifications
  import Rep = GenReports
  import S = GenSettings

  /** The options object: every field may be left out. */
  datatype Options = Options(
    seed: Option<int>,
    usersCount: Option<nat>,
    productsCount: Option<nat>,
    offersCount: Option<nat>,
    threadsCount: Option<nat>,
    messagesCount: Option<nat>,
    notificationsCount: Option<nat>,
    reportsCount: Option<nat>)

  const NO_OPTIONS := Options(None, None, None, None, None, None, None, None)

  /** The settings a run uses once the defaults are filled in. */
  datatype Config = Config(
    seed: int,
    usersCount: nat,
    productsCount: nat,
    offersCount: nat,
    threadsCount: nat,
    messagesCount: nat,
    notificationsCount: nat,
    reportsCount: nat)

  const DEFAULT_CONFIG := Config(SEED, 80, 400, 300, 180, 4000, 1200, 120)

  /** `options?.x ?? default` for every field. */
  function ConfigOf(opts: Options): (cfg: Config)
    ensures opts == NO_OPTIONS ==> cfg == DEFAULT_CONFIG
    ensures opts.seed.Some? ==> cfg.seed == opts.seed.value
    ensures opts.usersCount.Some? ==> cfg.usersCount == opts.usersCount.value
    ensures opts.productsCount.Some? ==> cfg.productsCount == opts.productsCount.value
    ensures opts.offersCount.Some? ==> cfg.offersCount == opts.offersCount.value
    ensures opts.threadsCount.Some? ==> cfg.threadsCount == opts.threadsCount.value
    ensures opts.messagesCount.Some? ==> cfg.messagesCount == opts.messagesCount.value
    ensures opts.notificationsCount.Some? ==> cfg.notificationsCount == opts.notificationsCount.value
    ensures opts.reportsCount.Some? ==> cfg.reportsCount == opts.reportsCount.value
  {
    Config(
      OrElse(opts.seed, DEFAULT_CONFIG.seed),
      OrElse(opts.usersCount, DEFAULT_CONFIG.usersCount),
      OrElse(opts.productsCount, DEFAULT_CONFIG.productsCount),
      OrElse(opts.offersCount, DEFAULT_CONFIG.offersCount),
      OrElse(opts.threadsCount, DEFAULT_CONFIG.threadsCount),
      OrElse(opts.messagesCount, DEFAULT_CONFIG.messagesCount),
      OrElse(opts.notificationsCount, DEFAULT_CONFIG.notificationsCount),
      OrElse(opts.reportsCount, DEFAULT_CONFIG.reportsCount))
  }

  /** The random draws of a run, stage by stage. The offer attempts and
      the thread fill iterations are retry loops: their draws are a finite
      supply, and a run that exhausts them stops early. */
  datatype Draws = Draws(
    users: seq<UserDraw>,
    products: seq<ProductDraw>,
    favorites: seq<F.FavoriteDraw>,
    offers: seq<O.OfferDraw>,
    seeds: seq<T.SeedDraw>,
    fills: seq<T.FillDraw>,
    messages: seq<M.MessageDraw>,
    notifications: seq<N.NotificationDraw>,
    reports: seq<Rep.ReportDraw>,
    settings: seq<S.SettingsDraw>)

  predicate FavoriteDrawsFit(d: Draws) {
    && |d.favorites| == |d.users|
    && forall i :: 0 <= i < |d.favorites| ==> F.DrawFits(d.favorites[i])
  }

  predicate SettingsDrawsFit(d: Draws) {
    forall i :: 0 <= i < |d.settings| ==> S.DrawFits(d.settings[i])
  }

  /** One draw per generated record, as the counts ask. */
  predicate DrawsFit(cfg: Config, d: Draws) {
    && |d.users| == cfg.usersCount
    && |d.products| == cfg.productsCount
    && FavoriteDrawsFit(d)
    && |d.seeds| >= cfg.offersCount
    && |d.messages| == cfg.messagesCount
    && |d.notifications| == cfg.notificationsCount
    && |d.reports| == cfg.reportsCount
    && |d.settings| == cfg.usersCount
    && SettingsDrawsFit(d)
  }

  /** Every intermediate collection of a run: `tagged` are the products
      after tag normalisation, `favored` after the favourites pass,
      `seeded` the threads before reconciliation, `products` after the
      view-count bumps. */
  datatype Stages = Stages(
    users: seq<User>,
    tagged: seq<Product>,
    favored: seq<Product>,
    offers: seq<Offer>,
    seeded: T.ThreadState,
    fillsUsed: nat,
    messages: seq<Message>,
    threads: seq<Thread>,
    notifications: seq<Notification>,
    products: seq<Product>,
    reports: seq<Report>,
    settings: S.Settings)

  /** Users and products generated, then the tags normalised. */
  predicate TagStage(d: Draws, now: int, s: Stages) {
    var users0 := GenerateUsers(d.users);
    && (|users0| > 0 || |d.products| == 0)
    && s.tagged == NormalizeTags(GenerateProducts(users0, d.products, now))
  }

  /** The favourites pass over the generated users and tagged products. */
  predicate FavStage(d: Draws, s: Stages)
    requires FavoriteDrawsFit(d)
  {
    (s.users, s.favored) == F.FavoritesPass(GenerateUsers(d.users), s.tagged, d.favorites)
  }

  predicate OffersStage(cfg: Config, d: Draws, now: int, s: Stages) {
    && O.GenerateOffers(s.users, s.favored, d.offers, cfg.offersCount, now) == Success(s.offers)
    && |d.seeds| >= |s.offers|
  }

  predicate ThreadsStage(cfg: Config, d: Draws, now: int, s: Stages) {
    && |d.seeds| >= |s.offers|
    && T.GenerateThreads(s.users, s.favored, s.offers, d.seeds, d.fills, cfg.threadsCount, now) == Success((s.seeded, s.fillsUsed))
  }

  predicate MessagesStage(d: Draws, now: int, s: Stages) {
    M.GenerateMessages(s.seeded.threads, d.messages, now) == Success(s.messages)
  }

  predicate ReconcileStage(s: Stages) {
    s.threads == Rc.ReconcileThreads(s.seeded.threads, s.messages)
  }

  predicate NotificationsStage(d: Draws, now: int, s: Stages) {
    N.GenerateNotifications(s.users, s.favored, d.notifications, now) == Success((s.notifications, s.products))
  }

  predicate ReportsStage(d: Draws, now: int, s: Stages) {
    Rep.GenerateReports(s.users, s.products, d.reports, now) == Success(s.reports)
  }

  predicate SettingsStage(d: Draws, s: Stages)
    requires SettingsDrawsFit(d)
  {
    && |d.settings| == |s.users|
    && s.settings == S.BuildSettings(s.users, d.settings)
  }

  /** `s` is what the stages compute from the draws, one after the other. */
  predicate StagesOf(cfg: Config, d: Draws, now: int, s: Stages)
    requires DrawsFit(cfg, d)
  {
    && TagStage(d, now, s)
    && FavStage(d, s)
    && OffersStage(cfg, d, now, s)
    && ThreadsStage(cfg, d, now, s)
    && MessagesStage(d, now, s)
    && ReconcileStage(s)
    && NotificationsStage(d, now, s)
    && ReportsStage(d, now, s)
    && SettingsStage(d, s)
  }

  function RunStages(cfg: Config, d: Draws, now: int): (r: Result<Stages, GenError>)
    requires DrawsFit(cfg, d)
    ensures r.Success? ==> StagesOf(cfg, d, now, r.value)
  {
    var users0 := GenerateUsers(d.users);
    if |users0| == 0 && |d.products| > 0 then Failure(EmptyPool(UsersPool))
    else
      var tagged := NormalizeTags(GenerateProducts(users0, d.products, now));
      var fav := F.FavoritesPass(users0, tagged, d.favorites);
      match O.GenerateOffers(fav.0, fav.1, d.offers, cfg.offersCount, now)
      case Failure(e) => Failure(e)
      case Success(offers) =>
        match T.GenerateThreads(fav.0, fav.1, offers, d.seeds, d.fills, cfg.threadsCount, now)
        case Failure(e) => Failure(e)
        case Success(th) =>
          match M.GenerateMessages(th.0.threads, d.messages, now)
          case Failure(e) => Failure(e)
          case Success(messages) =>
            match N.GenerateNotifications(fav.0, fav.1, d.notifications, now)
            case Failure(e) => Failure(e)
            case Success(nr) =>
              match Rep.GenerateReports(fav.0, nr.1, d.reports, now)
              case Failure(e) => Failure(e)
              case Success(reports) =>
                Success(Stages(fav.0, tagged, fav.1, offers, th.0, th.1, messages,
                  Rc.ReconcileThreads(th.0.threads, messages), nr.0, nr.1, reports,
                  S.BuildSettings(fav.0, d.settings)))
  }

  /** The snapshot a run returns. */
  function DbOf(cfg: Config, s: Stages): Db {
    Db(cfg.seed, s.users, s.products, s.offers, s.threads, s.messages, s.notifications, s.reports,
      s.settings.notifications, s.settings.locations, s.settings.trust)
  }

  /** `createMockDb(options)` with the options resolved to `cfg` and the
      generator's clock reading `now`. */
  function CreateMockDb(cfg: Config, d: Draws, now: int): (r: Result<Db, GenError>)
    requires DrawsFit(cfg, d)
    ensures r.Success? ==> r.value.seed == cfg.seed
  {
    match RunStages(cfg, d, now)
    case Failure(e) => Failure(e)
    case Success(s) => Success(DbOf(cfg, s))
  }

  /** Products nobody has favourited yet, viewed at most the base number
      of times. */
  predicate Fresh(products: seq<Product>) {
    forall k :: 0 <= k < |products| ==> products[k].favoritesCount == 0 && products[k].viewCount <= MAX_BASE_VIEWS
  }

  predicate BaseViews(products: seq<Product>) {
    forall k :: 0 <= k < |products| ==> products[k].viewCount <= MAX_BASE_VIEWS
  }

  /** Position by position, the same thread ids, participants and product. */
  predicate SameHeads(ts: seq<Thread>, rs: seq<Thread>) {
    && |rs| == |ts|
    && forall i :: 0 <= i < |ts| ==>
         && rs[i].id == ts[i].id && rs[i].userIds == ts[i].userIds
         && rs[i].otherUserId == ts[i].otherUserId && rs[i].productId == ts[i].productId
  }

  /** The tagged products are the generated ones: consistent and fresh. */
  lemma TaggedOk(d: Draws, now: int, s: Stages)
    requires TagStage(d, now, s)
    ensures ProductsOk(GenerateUsers(d.users), s.tagged) && Fresh(s.tagged)
  {
    var users0 := GenerateUsers(d.users);
    var generated := GenerateProducts(users0, d.products, now);
    GeneratedProductIdsDistinct(users0, d.products, now);
    forall i | 0 <= i < |s.tagged|
      ensures s.tagged[i].id == generated[i].id && s.tagged[i].ownerId == generated[i].ownerId
      ensures PremiumConsistent(s.tagged[i])
      ensures s.tagged[i].favoritesCount == 0 && s.tagged[i].viewCount <= MAX_BASE_VIEWS
    {
      assert s.tagged[i] == generated[i].(tags := s.tagged[i].tags);
    }
    SameOwnershipIds(generated, s.tagged);
  }

  /** The favourites pass keeps the users' ids and the first user's role. */
  lemma FavoredUsersOk(d: Draws, s: Stages)
    requires FavoriteDrawsFit(d) && FavStage(d, s)
    ensures |s.users| == |d.users| && UserIds(s.users) == UserIds(GenerateUsers(d.users))
    ensures UsersOk(s.users)
  {
    var users0 := GenerateUsers(d.users);
    GeneratedUserIdsDistinct(d.users);
    assert forall i :: 0 <= i < |s.users| ==> UserIds(s.users)[i] == UserIds(users0)[i];
  }

  /** The favourites pass keeps product ids, owners, premium and tags. */
  lemma FavoredProductsOk(d: Draws, s: Stages)
    requires FavoriteDrawsFit(d) && FavStage(d, s)
    requires ProductsOk(GenerateUsers(d.users), s.tagged)
    requires UserIds(s.users) == UserIds(GenerateUsers(d.users))
    ensures ProductsOk(s.users, s.favored)
  {
    SameOwnershipIds(s.tagged, s.favored);
    forall i | 0 <= i < |s.favored|
      ensures PremiumConsistent(s.favored[i]) && s.favored[i].tags == s.tagged[i].tags
    {
      assert s.favored[i] == s.tagged[i].(favoritesCount := s.favored[i].favoritesCount, likeCount := s.favored[i].favoritesCount);
    }
  }

  /** The favourites pass over fresh products with canonically distinct
      ids leaves the favourites consistent and the view counts as they were. */
  lemma FavoritesPassOk(users: seq<User>, products: seq<Product>, draws: seq<F.FavoriteDraw>)
    requires |draws| == |users| && forall i :: 0 <= i < |draws| ==> F.DrawFits(draws[i])
    requires CanonDistinct(ProductIds(products)) && Fresh(products)
    ensures FavoritesOk(F.FavoritesPass(users, products, draws).0, F.FavoritesPass(users, products, draws).1)
    ensures BaseViews(F.FavoritesPass(users, products, draws).1)
  {
    var pass := F.FavoritesPass(users, products, draws);
    var users', products' := pass.0, pass.1;
    F.FavoritesPassOwnership(users, products, draws);
    F.FavoritesPassCounts(users, products, draws);
    SameOwnershipIds(products, products');
    forall i, f | 0 <= i < |users'| && f in users'[i].favoritesProductIds
      ensures OwnerOf(products', f) == OwnerOf(products, f)
    {
      OwnerOfFrame(products, products', f);
    }
    forall k | 0 <= k < |products'|
      ensures products'[k].viewCount == products[k].viewCount
    {
      assert products'[k] == products[k].(favoritesCount := products'[k].favoritesCount, likeCount := products'[k].favoritesCount);
    }
  }

  /** After the favourites pass the counts are the listings, and the view
      counts are still the base ones. */
  lemma FavoredFavoritesOk(d: Draws, s: Stages)
    requires FavoriteDrawsFit(d) && FavStage(d, s)
    requires ProductsOk(GenerateUsers(d.users), s.tagged) && Fresh(s.tagged)
    ensures FavoritesOk(s.users, s.favored) && BaseViews(s.favored)
  {
    FavoritesPassOk(GenerateUsers(d.users), s.tagged, d.favorites);
  }

  /** Users, products and favourites after the first four stages. */
  lemma EarlyOk(d: Draws, now: int, s: Stages)
    requires FavoriteDrawsFit(d) && TagStage(d, now, s) && FavStage(d, s)
    ensures UsersOk(s.users) && ProductsOk(s.users, s.favored) && FavoritesOk(s.users, s.favored)
    ensures BaseViews(s.favored) && T.Refs(s.users, s.favored)
  {
    TaggedOk(d, now, s);
    FavoredUsersOk(d, s);
    FavoredProductsOk(d, s);
    FavoredFavoritesOk(d, s);
  }

  /** Bumping view counts keeps ids and owners. */
  lemma ViewBumpOwnership(ps: seq<Product>, qs: seq<Product>)
    requires N.OnlyViewCounts(ps, qs)
    ensures SameOwnership(ps, qs) && ProductIds(ps) == ProductIds(qs)
  {
    forall k | 0 <= k < |ps|
      ensures qs[k].id == ps[k].id && qs[k].ownerId == ps[k].ownerId
    {
      assert qs[k] == ps[k].(viewCount := qs[k].viewCount);
    }
    SameOwnershipIds(ps, qs);
  }

  /** Bumping view counts keeps products consistent. */
  lemma ProductsFrame(users: seq<User>, ps: seq<Product>, qs: seq<Product>)
    requires ProductsOk(users, ps) && N.OnlyViewCounts(ps, qs)
    ensures ProductsOk(users, qs)
  {
    ViewBumpOwnership(ps, qs);
    forall k | 0 <= k < |ps|
      ensures PremiumConsistent(qs[k]) && qs[k].tags == ps[k].tags
    {
      assert qs[k] == ps[k].(viewCount := qs[k].viewCount);
    }
  }

  /** Bumping view counts keeps favourites consistent. */
  lemma FavoritesFrame(users: seq<User>, ps: seq<Product>, qs: seq<Product>)
    requires FavoritesOk(users, ps) && N.OnlyViewCounts(ps, qs)
    ensures FavoritesOk(users, qs)
  {
    ViewBumpOwnership(ps, qs);
    forall i, f | 0 <= i < |users| && f in users[i].favoritesProductIds
      ensures OwnerOf(qs, f) == OwnerOf(ps, f)
    {
      OwnerOfFrame(ps, qs, f);
    }
    forall k | 0 <= k < |ps|
      ensures qs[k].favoritesCount == ps[k].favoritesCount && qs[k].likeCount == ps[k].likeCount
    {
      assert qs[k] == ps[k].(viewCount := qs[k].viewCount);
    }
  }

  /** Offers stay valid against the products after the view-count bumps. */
  lemma OffersStageOk(cfg: Config, d: Draws, now: int, s: Stages)
    requires OffersStage(cfg, d, now, s) && N.OnlyViewCounts(s.favored, s.products)
    ensures OffersOk(s.users, s.products, s.offers, now)
  {
    ViewBumpOwnership(s.favored, s.products);
    O.AllValidFrame(s.users, s.favored, s.products, s.offers, now);
  }

  /** Reconciliation touches only the summary fields of a thread. */
  lemma ReconcileKeepsHeads(s: Stages)
    requires ReconcileStage(s)
    ensures SameHeads(s.seeded.threads, s.threads)
  {
  }

  /** Threads are numbered, well shaped and unique per pair and product. */
  lemma ThreadsShapeOk(cfg: Config, d: Draws, now: int, s: Stages)
    requires ThreadsStage(cfg, d, now, s) && SameHeads(s.seeded.threads, s.threads)
    requires T.StateOk(s.users, s.favored, now, s.seeded) && ProductIds(s.favored) == ProductIds(s.products)
    ensures forall i :: 0 <= i < |s.threads| ==>
      s.threads[i].id == T.ThreadIdAt(i + 1) && ThreadShapeOk(s.users, s.products, s.threads[i])
    ensures forall i, j :: 0 <= i < |s.threads| && 0 <= j < |s.threads| && i != j ==>
      T.KeyOfThread(s.threads[i]) != T.KeyOfThread(s.threads[j])
  {
    var pre := s.seeded.threads;
    forall i | 0 <= i < |s.threads|
      ensures s.threads[i].id == T.ThreadIdAt(i + 1) && ThreadShapeOk(s.users, s.products, s.threads[i])
      ensures T.KeyOfThread(s.threads[i]) == s.seeded.keys[i]
    {
      assert T.ThreadOk(s.users, s.favored, now, pre[i], i + 1, s.seeded.keys[i]);
    }
  }

  /** Threads are consistent, and every accepted or completed offer has one. */
  lemma ThreadsStageOk(cfg: Config, d: Draws, now: int, s: Stages)
    requires OffersStage(cfg, d, now, s) && ThreadsStage(cfg, d, now, s) && SameHeads(s.seeded.threads, s.threads)
    requires T.Refs(s.users, s.favored) && ProductIds(s.favored) == ProductIds(s.products)
    ensures ThreadsOk(s.users, s.products, s.offers, s.threads)
  {
    T.GenerateThreadsOk(s.users, s.favored, s.offers, d.seeds, d.fills, cfg.threadsCount, now);
    ThreadsShapeOk(cfg, d, now, s);
    forall o | o in s.offers && O.AcceptedLike(o)
      ensures exists i :: 0 <= i < |s.threads| && T.Covers(s.threads[i], o)
    {
      var i :| 0 <= i < |s.seeded.threads| && T.Covers(s.seeded.threads[i], o);
      assert T.Covers(s.threads[i], o);
    }
  }

  /** Messages sit in threads and are sent by participants, also after
      reconciliation. */
  lemma MessagesStageOk(d: Draws, now: int, s: Stages)
    requires MessagesStage(d, now, s) && SameHeads(s.seeded.threads, s.threads)
    ensures MessagesOk(s.threads, s.messages, now)
  {
    forall i | 0 <= i < |s.messages|
      ensures M.MessageOk(s.threads, s.messages[i], now)
    {
      assert M.MessageOk(s.seeded.threads, s.messages[i], now);
      FindThreadFrame(s.seeded.threads, s.threads, s.messages[i].threadId);
    }
  }

  /** Each thread's summary agrees with its messages. */
  lemma SummariesStageOk(s: Stages)
    requires ReconcileStage(s)
    ensures SummariesOk(s.threads, s.messages)
  {
    Rc.ReconcileThreadsCorrect(s.seeded.threads, s.messages);
  }

  /** Notifications are about known users and products, and each product's
      view count adds its "product viewed" notifications to the base. */
  lemma NotificationsStageOk(d: Draws, now: int, s: Stages)
    requires NotificationsStage(d, now, s) && T.Refs(s.users, s.favored) && BaseViews(s.favored)
    ensures NotificationsOk(s.users, s.products, s.notifications, now)
  {
    N.RunNotificationsOk(s.users, s.favored, d.notifications, now, 1);
    CanonDistinctIsDistinct(ProductIds(s.favored));
    N.ViewCounts(s.users, s.favored, d.notifications, now, 1);
    ViewBumpOwnership(s.favored, s.products);
    forall i | 0 <= i < |s.notifications|
      ensures N.NotificationOk(s.users, s.products, s.notifications[i], now)
    {
      assert N.NotificationOk(s.users, s.favored, s.notifications[i], now);
    }
  }

  /** Every user has their settings, city and trust score. */
  lemma SettingsStageOk(d: Draws, s: Stages)
    requires SettingsDrawsFit(d) && SettingsStage(d, s) && CanonDistinct(UserIds(s.users))
    ensures SettingsOk(s.users, s.settings.notifications, s.settings.locations, s.settings.trust)
  {
    forall i | 0 <= i < |s.users|
      ensures Canon(s.users[i].id) in s.settings.trust
      ensures s.settings.notifications[Canon(s.users[i].id)] == S.DEFAULT_NOTIFICATION_SETTINGS
      ensures s.settings.locations[Canon(s.users[i].id)] == S.MakeLocationSettings(s.users[i].city, d.settings[i])
      ensures s.settings.trust[Canon(s.users[i].id)] == MakeTrustScore(s.users[i].id, d.settings[i].trustDraws)
    {
      S.SettingsOfUser(s.users, d.settings, i);
    }
  }

  /** Every snapshot `createMockDb` returns is consistent. */
  lemma CreateMockDbConsistent(cfg: Config, d: Draws, now: int)
    requires DrawsFit(cfg, d)
    ensures var r := CreateMockDb(cfg, d, now);
      r.Success? ==> Consistent(r.value, now)
  {
    var r := RunStages(cfg, d, now);
    if r.Success? {
      var s := r.value;
      EarlyOk(d, now, s);
      ProductsFrame(s.users, s.favored, s.products);
      FavoritesFrame(s.users, s.favored, s.products);
      ViewBumpOwnership(s.favored, s.products);
      OffersStageOk(cfg, d, now, s);
      ReconcileKeepsHeads(s);
      ThreadsStageOk(cfg, d, now, s);
      MessagesStageOk(d, now, s);
      SummariesStageOk(s);
      NotificationsStageOk(d, now, s);
      SettingsStageOk(d, s);
      assert CreateMockDb(cfg, d, now) == Success(DbOf(cfg, s));
    }
  }
}
