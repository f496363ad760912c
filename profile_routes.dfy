/**
  The profile handlers (server/routes/profileRoutes.js) over the `Profiles`
  table, whose `userId` column is declared unique. No token is checked:
  the owner is the `userId` named in the path.
*/
module ProfileRoutes {
  import opened Common

  /** A row of `Profiles` (server/models/Profile.js). */
  datatype Profile = Profile(
    userId: int,
    skinType: Option<string>,
    allergies: Option<string>,
    dob: Option<string>,
    gender: Option<string>,
    conditions: Option<string>)

  /** The five keys POST /profile/:userId reads from the body. */
  datatype ProfileBody = ProfileBody(
    skinType: Option<string>,
    allergies: Option<string>,
    dob: Option<string>,
    gender: Option<string>,
    conditions: Option<string>)

  /** The row `upsert` writes for `userId`. */
  function ProfileOf(userId: int, body: ProfileBody): Profile {
    Profile(userId, body.skinType, body.allergies, body.dob, body.gender, body.conditions)
  }

  /** Some row of `profiles` belongs to `userId`. */
  predicate HasProfile(profiles: map<int, Profile>, userId: int) {
    exists id :: id in profiles && profiles[id].userId == userId
  }

  /** The unique constraint on `userId`: no two rows share one. */
  ghost predicate OnePerUser(profiles: map<int, Profile>) {
    forall a, b :: a in profiles && b in profiles && profiles[a].userId == profiles[b].userId ==> a == b
  }

  class ProfileStore {
    var profiles: map<int, Profile>
    var nextProfileId: int

    ghost predicate Valid()
      reads this
    {
      && 1 <= nextProfileId
      && (forall id :: id in profiles ==> 1 <= id < nextProfileId)
      && OnePerUser(profiles)
    }

    constructor ()
      ensures Valid() && profiles == map[]
    {
      profiles := map[];
      nextProfileId := 1;
    }

    /**
      POST /profile/:userId: overwrite the profile of `userId` with the
      body's five fields, or insert one when that user has none.
    */
    method Save(userId: int, body: ProfileBody) returns (status: Status)
      requires Valid()
      modifies this
      ensures Valid()
      ensures status == 200
      ensures exists id :: id in profiles && profiles[id] == ProfileOf(userId, body)
      ensures old(HasProfile(profiles, userId)) ==>
                exists id :: id in old(profiles) && old(profiles)[id].userId == userId
                             && profiles == old(profiles)[id := ProfileOf(userId, body)]
      ensures !old(HasProfile(profiles, userId)) ==>
                old(nextProfileId) !in old(profiles)
                && profiles == old(profiles)[old(nextProfileId) := ProfileOf(userId, body)]
      ensures forall id :: id in old(profiles) && old(profiles)[id].userId != userId ==>
                id in profiles && profiles[id] == old(profiles)[id]
      ensures forall id :: id in profiles && profiles[id].userId != userId ==> id in old(profiles)
    {
      var row := ProfileOf(userId, body);
      if HasProfile(profiles, userId) {
        var id :| id in profiles && profiles[id].userId == userId;
        profiles := profiles[id := row];
        assert profiles[id] == row;
      } else {
        var id := nextProfileId;
        profiles := profiles[id := row];
        nextProfileId := nextProfileId + 1;
        assert profiles[id] == row;
      }
      status := 200;
    }

    /** GET /profile/:userId: 404 iff `userId` has no profile; otherwise that profile. */
    method Get(userId: int) returns (status: Status, profile: Option<Profile>)
      requires Valid()
      ensures status == 404 <==> !HasProfile(profiles, userId)
      ensures status == 404 ==> profile.None?
      ensures status != 404 ==> status == 200 && profile.Some? && profile.value.userId == userId
                                && profile.value in profiles.Values
    {
      if !HasProfile(profiles, userId) {
        return 404, None;
      }
      var id :| id in profiles && profiles[id].userId == userId;
      status, profile := 200, Some(profiles[id]);
    }
  }
}
