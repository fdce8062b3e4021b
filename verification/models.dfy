/** The entities of the mock dataset (src/types/models.ts), keeping the
    fields that take part in the dataset's invariants. Times are integers
    (milliseconds); identity text such as names, e-mails, phones, avatars
    and image URLs is not represented. */
module Models {
  import opened Ids
  import opened Wrappers
  import opened Sampling

  /** One day in milliseconds (`864e5`). */
  const DAY_MS: int := 86_400_000

  /** `isoDaysAgo(days)`: the instant `days` whole days before `now`, a day
      being a fixed 86 400 000 ms. */
  function DaysAgo(now: int, days: nat): int {
    now - days * DAY_MS
  }

  /** A draw of at most `max` days back lands in the window of the last
      `max` days, never after `now`. */
  lemma DaysAgoWindow(now: int, days: nat, max: nat)
    requires days <= max
    ensures now - max * DAY_MS <= DaysAgo(now, days) <= now
  {
    DaysAgoMonotone(now, days, max);
    DaysAgoMonotone(now, 0, days);
  }

  /** Going more days back never gives a later instant. */
  lemma DaysAgoMonotone(now: int, d1: nat, d2: nat)
    requires d1 <= d2
    ensures DaysAgo(now, d2) <= DaysAgo(now, d1)
  {
    assert d2 * DAY_MS == d1 * DAY_MS + (d2 - d1) * DAY_MS;
  }

  /** The pools `pick` may be asked to draw from while one is empty, which
      makes the generator throw. */
  datatype Pool = UsersPool | ProductsPool | OtherUsersPool | ThreadsPool | ParticipantsPool

  datatype GenError = EmptyPool(pool: Pool) | UnknownUser(key: string)

  /** The default seed of `createMockDb`. */
  const SEED: int := 20260109

  /** `role`; `Member` is the source's `'user'`. */
  datatype Role = Member | Moderator | Admin

  datatype User = User(
    id: Id,
    username: string,
    city: string,
    role: Role,
    verified: bool,
    onlineStatus: bool,
    isPremium: bool,
    favoritesProductIds: seq<Id>)

  datatype Condition = New | SlightlyUsed | Used

  /** A product's `status`: `'draft'` or the product's condition. */
  datatype ProductStatus = Draft | InCondition(condition: Condition)

  /** `premiumType`; `Plain` is the source's `'none'`. */
  datatype PremiumType = Plain | Featured | Vitrin

  datatype Product = Product(
    id: Id,
    ownerId: Id,
    hashTags: seq<string>,
    tags: seq<string>,
    condition: Condition,
    status: ProductStatus,
    isExchanged: bool,
    premium: bool,
    isAd: bool,
    premiumType: PremiumType,
    premiumExpiryDate: Option<int>,
    viewCount: nat,
    likeCount: nat,
    favoritesCount: nat,
    hidden: Option<bool>)

  datatype OfferStatus = Pending | Accepted | Rejected | Cancelled | Completed

  datatype Offer = Offer(
    id: Id,
    initiatorId: Id,
    targetUserId: Id,
    targetProductId: Id,
    offeredProductId: Id,
    status: OfferStatus,
    createdAt: int,
    updatedAt: int)

  datatype Thread = Thread(
    id: Id,
    userIds: seq<Id>,
    otherUserId: Id,
    lastMessageText: string,
    lastMessageTime: int,
    unreadCount: nat,
    productId: Option<Id>)

  datatype MessageStatus = Sent | Delivered | Read

  datatype Message = Message(
    id: Id,
    threadId: Id,
    senderUserId: Id,
    text: string,
    time: int,
    isRead: bool,
    status: MessageStatus)

  datatype NotificationType =
    SwapOffer | SwapAccepted | SwapRejected | ProductViewed | NewMessage | FavoriteUpdated

  datatype Notification = Notification(
    id: Id,
    kind: NotificationType,
    title: string,
    time: int,
    isRead: bool,
    userId: Id,
    productId: Option<Id>)

  /** Report categories, including `'suggestion'`, which the generator uses
      although the declared category type omits it. */
  datatype ReportCategory = Bug | UserCategory | ProductCategory | Payment | Other | Suggestion

  datatype ReportStatus = Open | InReview | Resolved | Rejected

  /** A report's text: an entry of the suggestion corpus or of the
      complaint corpus, by position. */
  datatype ReportMessage = SuggestionText(index: nat) | ComplaintText(index: nat)

  datatype Report = Report(
    id: Id,
    category: ReportCategory,
    message: ReportMessage,
    createdAt: int,
    reporterUserId: Id,
    targetUserId: Option<Id>,
    targetProductId: Option<Id>,
    status: ReportStatus)

  datatype TrustFactorKind = CompletedSwaps | Ratings | ResponseTime | ProfileCompleteness | Verification

  /** Scores are in hundredths: 100 stands for the source's 1.0. */
  datatype TrustFactor = TrustFactor(kind: TrustFactorKind, score: nat, maxScore: nat)

  datatype TrustScore = TrustScore(userId: Id, overallScore: nat, factors: seq<TrustFactor>)

  datatype NotificationSettings = NotificationSettings(
    pushEnabled: bool,
    swapOffers: bool,
    swapAccepted: bool,
    swapRejected: bool,
    newMessages: bool,
    productViewed: bool,
    newFollowers: bool,
    emailEnabled: bool,
    emailSwapUpdates: bool,
    emailWeeklyDigest: bool,
    emailPromotions: bool,
    quietHoursEnabled: bool,
    quietHoursStart: string,
    quietHoursEnd: string)

  datatype LocationSettings = LocationSettings(locationPermission: bool, city: string, nearbyRadiusKm: nat)

  /** The whole snapshot (`MockDb`); the three settings maps are keyed by
      the canonical user id. */
  datatype Db = Db(
    seed: int,
    users: seq<User>,
    products: seq<Product>,
    offers: seq<Offer>,
    threads: seq<Thread>,
    messages: seq<Message>,
    notifications: seq<Notification>,
    reports: seq<Report>,
    notificationSettingsByUserId: map<string, NotificationSettings>,
    locationSettingsByUserId: map<string, LocationSettings>,
    trustScoresByUserId: map<string, TrustScore>)

  /** The premium triple: `premium` exactly when the type is not `'none'`,
      the ad flag mirrors it, and an expiry date exists exactly when premium. */
  predicate PremiumConsistent(p: Product) {
    && p.premium == (p.premiumType != Plain)
    && p.isAd == p.premium
    && p.premiumExpiryDate.Some? == p.premium
  }

  /** The title a notification of each type carries. */
  function TitleOf(kind: NotificationType): string {
    match kind
    case SwapOffer => "Yeni Takas Teklifi"
    case SwapAccepted => "Takas Kabul Edildi"
    case SwapRejected => "Takas Reddedildi"
    case ProductViewed => "Ürünün Görüntülendi"
    case NewMessage => "Yeni Mesaj"
    case FavoriteUpdated => "Favori Güncellendi"
  }

  /** Different notification types carry different titles, so the title
      identifies the type. */
  lemma TitleOfInjective(a: NotificationType, b: NotificationType)
    ensures TitleOf(a) == TitleOf(b) <==> a == b
  {
    if a != b {
      assert |TitleOf(a)| != |TitleOf(b)| || TitleOf(a)[0] != TitleOf(b)[0];
    }
  }

  /** A weighted draw over a table of values, rolling in 0..99 as all the
      source's tables total 100. */
  function Weighted<T>(values: seq<T>, weights: seq<nat>, roll: nat): T
    requires |values| == |weights|
    requires Total(weights) == 100
  {
    values[WeightedIndex(weights, roll % 100)]
  }

  const ROLE_WEIGHTS: seq<nat> := [92, 6, 2]
  const PREMIUM_TYPE_WEIGHTS: seq<nat> := [55, 45]
  const OFFER_STATUS_WEIGHTS: seq<nat> := [55, 18, 15, 10, 2]
  const MESSAGE_STATUS_WEIGHTS: seq<nat> := [20, 35, 45]
  const REPORT_STATUS_WEIGHTS: seq<nat> := [55, 25, 12, 8]

  /** Weighted role of every user but the first (92 user, 6 moderator, 2 admin). */
  function RoleFromRoll(roll: nat): Role {
    assert Total(ROLE_WEIGHTS) == 100;
    Weighted([Member, Moderator, Admin], ROLE_WEIGHTS, roll)
  }

  /** Weighted premium type of a premium product (55 featured, 45 vitrin). */
  function PremiumTypeFromRoll(roll: nat): PremiumType {
    assert Total(PREMIUM_TYPE_WEIGHTS) == 100;
    Weighted([Featured, Vitrin], PREMIUM_TYPE_WEIGHTS, roll)
  }

  /** Weighted offer status (55 pending, 18 accepted, 15 rejected, 10 cancelled, 2 completed). */
  function OfferStatusFromRoll(roll: nat): OfferStatus {
    assert Total(OFFER_STATUS_WEIGHTS) == 100;
    Weighted([Pending, Accepted, OfferStatus.Rejected, Cancelled, Completed], OFFER_STATUS_WEIGHTS, roll)
  }

  /** Weighted delivery status of a message (20 sent, 35 delivered, 45 read). */
  function MessageStatusFromRoll(roll: nat): MessageStatus {
    assert Total(MESSAGE_STATUS_WEIGHTS) == 100;
    Weighted([Sent, Delivered, Read], MESSAGE_STATUS_WEIGHTS, roll)
  }

  /** Weighted report status (55 open, 25 in review, 12 resolved, 8 rejected). */
  function ReportStatusFromRoll(roll: nat): ReportStatus {
    assert Total(REPORT_STATUS_WEIGHTS) == 100;
    Weighted([Open, InReview, Resolved, ReportStatus.Rejected], REPORT_STATUS_WEIGHTS, roll)
  }
}
