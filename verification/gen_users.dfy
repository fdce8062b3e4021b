/** The user stage of `createMockDb`: user `idx` gets id `idx + 1`, a
    generated user name, weighted role (the first user is always an
    admin), and the verified/online/premium rolls; favorites start empty. */
module GenUsers {
  import opened Ids
  import opened Sampling
  import opened Models
  import opened Lookup
  import opened Username

  /** The draws one user consumes. Names and city are opaque text. */
  datatype UserDraw = UserDraw(
    firstName: string,
    lastName: string,
    city: string,
    roleRoll: nat,
    verifiedRoll: nat,
    onlineRoll: nat,
    premiumRoll: nat,
    usernameDraw: nat)

  function MakeUser(idx: nat, d: UserDraw): User {
    User(
      Num(idx + 1),
      MakeUsername(d.firstName, d.lastName, d.usernameDraw),
      d.city,
      if idx == 0 then Admin else RoleFromRoll(d.roleRoll),
      Chance(25, d.verifiedRoll),
      Chance(35, d.onlineRoll),
      Chance(18, d.premiumRoll),
      [])
  }

  /** One user per draw, ids 1, 2, 3, ...; user index 0 is an admin
      whatever its role roll. */
  function GenerateUsers(draws: seq<UserDraw>): (users: seq<User>)
    ensures |users| == |draws|
    ensures forall i :: 0 <= i < |users| ==> users[i].id == Num(i + 1)
    ensures forall i :: 0 <= i < |users| ==> users[i].favoritesProductIds == []
    ensures |users| > 0 ==> users[0].role == Admin
    ensures forall i :: 1 <= i < |users| ==> users[i].role == RoleFromRoll(draws[i].roleRoll)
  {
    seq(|draws|, i requires 0 <= i < |draws| => MakeUser(i, draws[i]))
  }

  /** Generated user ids are pairwise different even as strings. */
  lemma GeneratedUserIdsDistinct(draws: seq<UserDraw>)
    ensures CanonDistinct(UserIds(GenerateUsers(draws)))
    ensures forall i :: 0 <= i < |draws| ==> IsDigits(Canon(GenerateUsers(draws)[i].id))
  {
    var us := GenerateUsers(draws);
    NumberedIdsDistinct(UserIds(us), 1);
  }
}
