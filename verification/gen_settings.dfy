/** The per-user records of `createMockDb`: notification settings,
    location settings and a trust score for every user, each stored under
    the user's id as a string (a later user with the same string replaces
    an earlier one). */
module GenSettings {
  import opened Ids
  import opened Sampling
  import opened Models
  import opened Lookup
  import opened Trust

  /** `makeNotificationSettings()`: push and every in-app kind on, e-mail
      off, quiet hours off from 23:00 to 08:00. */
  const DEFAULT_NOTIFICATION_SETTINGS: NotificationSettings :=
    NotificationSettings(true, true, true, true, true, true, true, false, false, false, false, false, "23:00", "08:00")

  const RADIUS_OPTIONS_KM: seq<nat> := [5, 10, 20, 50]

  /** The draws for one user: the radius and the five factor scores. */
  datatype SettingsDraw = SettingsDraw(radiusDraw: nat, trustDraws: seq<nat>)

  predicate DrawFits(d: SettingsDraw) {
    |d.trustDraws| == |FACTOR_KINDS|
  }

  /** `makeLocationSettings(city)`: permission granted, the user's city, a
      radius from the fixed options. */
  function MakeLocationSettings(city: string, d: SettingsDraw): (l: LocationSettings)
    ensures l.locationPermission && l.city == city && l.nearbyRadiusKm in RADIUS_OPTIONS_KM
  {
    LocationSettings(true, city, Pick(RADIUS_OPTIONS_KM, d.radiusDraw))
  }

  /** The string forms of the user ids. */
  function UserKeys(users: seq<User>): set<string> {
    set i | 0 <= i < |users| :: Canon(users[i].id)
  }

  datatype Settings = Settings(
    notifications: map<string, NotificationSettings>,
    locations: map<string, LocationSettings>,
    trust: map<string, TrustScore>)

  /** The loop over the users, in order. */
  function BuildSettings(users: seq<User>, draws: seq<SettingsDraw>): (s: Settings)
    requires |draws| == |users|
    requires forall i :: 0 <= i < |draws| ==> DrawFits(draws[i])
    ensures s.notifications.Keys == UserKeys(users)
    ensures s.locations.Keys == UserKeys(users)
    ensures s.trust.Keys == UserKeys(users)
    decreases |users|
  {
    if |users| == 0 then Settings(map[], map[], map[])
    else
      var n := |users| - 1;
      var u := users[n];
      assert DrawFits(draws[n]);
      var prev := BuildSettings(users[..n], draws[..n]);
      assert UserKeys(users) == UserKeys(users[..n]) + {Canon(u.id)} by {
        assert forall i :: 0 <= i < n ==> users[..n][i] == users[i];
      }
      Settings(
        prev.notifications[Canon(u.id) := DEFAULT_NOTIFICATION_SETTINGS],
        prev.locations[Canon(u.id) := MakeLocationSettings(u.city, draws[n])],
        prev.trust[Canon(u.id) := MakeTrustScore(u.id, draws[n].trustDraws)])
  }

  /** Under ids distinct as strings, each user's key holds that user's
      records: the default notification settings, the user's city with a
      listed radius, and the trust score made for that user (consistent,
      by `MakeTrustScore`). */
  lemma {:induction false} SettingsOfUser(users: seq<User>, draws: seq<SettingsDraw>, i: nat)
    requires |draws| == |users|
    requires forall j :: 0 <= j < |draws| ==> DrawFits(draws[j])
    requires CanonDistinct(UserIds(users)) && i < |users|
    ensures Canon(users[i].id) in BuildSettings(users, draws).trust
    ensures BuildSettings(users, draws).notifications[Canon(users[i].id)] == DEFAULT_NOTIFICATION_SETTINGS
    ensures BuildSettings(users, draws).locations[Canon(users[i].id)] == MakeLocationSettings(users[i].city, draws[i])
    ensures BuildSettings(users, draws).trust[Canon(users[i].id)] == MakeTrustScore(users[i].id, draws[i].trustDraws)
    decreases |users|
  {
    var n := |users| - 1;
    assert DrawFits(draws[i]);
    if i < n {
      assert CanonDistinct(UserIds(users[..n])) by {
        assert forall j :: 0 <= j < n ==> UserIds(users[..n])[j] == UserIds(users)[j];
      }
      assert users[..n][i] == users[i] && draws[..n][i] == draws[i];
      SettingsOfUser(users[..n], draws[..n], i);
      assert Canon(users[n].id) != Canon(users[i].id) by {
        assert UserIds(users)[n] == users[n].id && UserIds(users)[i] == users[i].id;
      }
    }
  }
}
