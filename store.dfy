/** The HTTP handlers of the festival app over an in-memory document store:
    `users/{id}`, `festivals/{id}` and `users/{id}/festivals/{festivalId}`
    are three maps, and each handler is one method. */
module FestStore {
  import opened Documents
  import opened Favorites
  import opened Follows
  import opened Search
  import opened Schedule

  /** What `create_user` answers with (status 201 either way). */
  datatype CreatedUser = CreatedUser(alreadyExisted: bool, user: User, userId: string)

  /** One entry of the `find_users` answer. */
  datatype UserHit = UserHit(username: Value, userId: string)

  /** main.py:81-85: the follow body names a user id and a username. */
  predicate HasFollowFields(data: Body): (ok: bool)
    ensures ok ==> "user_id" in data && "username" in data
  {
    Truthy(Get(data, "user_id")) && Truthy(Get(data, "username"))
  }

  /** main.py:115-120: the favourite body names a day and a band, and
      `favorite` is not None. */
  predicate HasFavoriteFields(data: Body): (ok: bool)
    ensures ok ==> "presentation_day" in data && "band_id" in data && "favorite" in data
  {
    Truthy(Get(data, "presentation_day")) && Truthy(Get(data, "band_id")) && Get(data, "favorite") != Null
  }

  /** main.py:136: the entry a favourite body toggles. */
  function EntryOf(data: Body): (entry: FavoriteKey)
    ensures HasFavoriteFields(data) ==> Truthy(entry.presentationDay) && Truthy(entry.bandId)
  {
    FavoriteKey(Get(data, "presentation_day"), Get(data, "band_id"))
  }

  /** Every field of every entry can be encoded by the store client. */
  predicate StorableEntries(bands: seq<FavoriteKey>) {
    forall e :: e in bands ==> Storable(e.presentationDay) && Storable(e.bandId)
  }

  /** The username and every cached username can be encoded. */
  predicate StorableUser(u: User) {
    && Storable(u.username)
    && (u.following.Some? ==> forall e :: e in u.following.value ==> Storable(e.username))
  }

  /** Starting from a list the store could hold, the write at main.py:145
      fails exactly when the toggle appends an entry with an integer beyond
      64 bits. */
  lemma OverflowOnlyOnAppend(bands: seq<FavoriteKey>, entry: FavoriteKey, favorite: bool)
    requires StorableEntries(bands)
    ensures !StorableEntries(Toggle(bands, entry, favorite)) <==>
              favorite && !Listed(bands, entry) && !(Storable(entry.presentationDay) && Storable(entry.bandId))
  {
    ToggleKeepsOrder(bands, entry, favorite);
    if favorite && !Listed(bands, entry) {
      var r := Toggle(bands, entry, favorite);
      assert r[|bands|] == entry;
    }
  }

  class Store {
    var users: map<string, User>
    var festivals: map<string, Festival>
    var favorites: FavoritesStore

    /** Both lists the handlers use as sets hold no duplicate value (for
        favourites, no two entries equal under Python's `==`), and every
        stored integer fits in 64 bits. */
    ghost predicate Valid()
      reads this
    {
      && (forall id :: id in users ==> StorableUser(users[id]))
      && (forall id :: id in users && users[id].following.Some? ==> NoDup(users[id].following.value))
      && (forall k :: k in favorites ==> Distinct(favorites[k]) && StorableEntries(favorites[k]))
    }

    /** A store whose festivals were loaded from outside and that holds no
        user yet. */
    constructor (festivals: map<string, Festival>)
      ensures Valid()
      ensures this.festivals == festivals && users == map[] && favorites == map[]
    {
      this.festivals := festivals;
      users := map[];
      favorites := map[];
    }

    /** The query of main.py:40-45: some user with this exact username, or
        None when there is none. */
    method LookupUsername(username: Value) returns (existing: Option<string>)
      ensures existing.Some? ==> existing.value in users && users[existing.value].username == username
      ensures existing.None? ==> forall id :: id in users ==> users[id].username != username
    {
      existing := None;
      var remaining := users.Keys;
      while remaining != {}
        invariant remaining <= users.Keys
        invariant existing.Some? ==> existing.value in users && users[existing.value].username == username
        invariant existing.None? ==> forall id :: id in users && id !in remaining ==> users[id].username != username
        decreases |remaining|
      {
        var id :| id in remaining;
        if users[id].username == username {
          existing := Some(id);
        }
        remaining := remaining - {id};
      }
    }

    /** `create_user` (main.py:34-54): the existing user with that username,
        or a new user with no edges under the id the store hands out. A
        username integer beyond 64 bits makes the query at main.py:41 raise. */
    method CreateUser(body: Body, newId: string) returns (r: Result<CreatedUser>)
      requires Valid()
      modifies this
      ensures Valid()
      ensures festivals == old(festivals) && favorites == old(favorites)
      ensures !Truthy(Get(body, "username")) ==> r == Failure(MissingUsername) && users == old(users)
      ensures Truthy(Get(body, "username")) && !Storable(Get(body, "username")) ==>
                r == Failure(IntegerOutOfRange) && users == old(users)
      ensures Truthy(Get(body, "username")) && Storable(Get(body, "username")) && (exists id :: id in old(users) && old(users)[id].username == Get(body, "username")) ==>
                && r.Success? && r.value.alreadyExisted && users == old(users)
                && r.value.userId in users && users[r.value.userId] == r.value.user
                && r.value.user.username == Get(body, "username")
      ensures Truthy(Get(body, "username")) && Storable(Get(body, "username")) && (forall id :: id in old(users) ==> old(users)[id].username != Get(body, "username")) ==>
                && r == Success(CreatedUser(false, User(Get(body, "username"), Some([])), newId))
                && users == old(users)[newId := User(Get(body, "username"), Some([]))]
    {
      var username := Get(body, "username");
      if !Truthy(username) {
        return Failure(MissingUsername);
      }
      if !Storable(username) {
        return Failure(IntegerOutOfRange);
      }
      var existing := LookupUsername(username);
      if existing.Some? {
        return Success(CreatedUser(true, users[existing.value], existing.value));
      }
      var newUser := User(username, Some([]));
      users := users[newId := newUser];
      r := Success(CreatedUser(false, newUser, newId));
    }

    /** `find_users` (main.py:58-72): every user whose username lies in the
        range of the query, each once. */
    method FindUsers(query: Option<string>) returns (r: Result<seq<UserHit>>)
      ensures query.None? ==> r == Failure(MissingUserParameter)
      ensures query.Some? ==> r.Success?
      ensures query.Some? ==> forall h :: h in r.value ==>
                h.userId in users && h.username == users[h.userId].username && InPrefixRange(h.username, query.value)
      ensures query.Some? ==> forall id :: id in users && InPrefixRange(users[id].username, query.value) ==>
                UserHit(users[id].username, id) in r.value
      ensures query.Some? ==> forall i, j :: 0 <= i < j < |r.value| ==> r.value[i].userId != r.value[j].userId
    {
      if query.None? {
        return Failure(MissingUserParameter);
      }
      var q := query.value;
      var found: seq<UserHit> := [];
      var remaining := users.Keys;
      while remaining != {}
        invariant remaining <= users.Keys
        invariant forall h :: h in found ==>
                    h.userId in users && h.userId !in remaining
                    && h.username == users[h.userId].username && InPrefixRange(h.username, q)
        invariant forall id :: id in users && id !in remaining && InPrefixRange(users[id].username, q) ==>
                    UserHit(users[id].username, id) in found
        invariant forall i, j :: 0 <= i < j < |found| ==> found[i].userId != found[j].userId
        decreases |remaining|
      {
        var id :| id in remaining;
        if InPrefixRange(users[id].username, q) {
          found := found + [UserHit(users[id].username, id)];
        }
        remaining := remaining - {id};
      }
      r := Success(found);
    }

    /** `follow_user` (main.py:75-106): checks the body, then the follower,
        then the user to follow, and adds the edge by array union; a cached
        username integer beyond 64 bits makes the update at main.py:99 raise. */
    method FollowUser(userId: string, body: Option<Body>) returns (r: Outcome)
      requires Valid()
      modifies this
      ensures Valid()
      ensures festivals == old(festivals) && favorites == old(favorites)
      ensures r.Fail? ==> users == old(users)
      ensures MissingBody(body) ==> r == Fail(MissingRequestBody)
      ensures !MissingBody(body) && !HasFollowFields(body.value) ==> r == Fail(MissingFollowFields)
      ensures !MissingBody(body) && HasFollowFields(body.value) ==>
                var target := Get(body.value, "user_id");
                && (userId !in old(users) ==> r == Fail(UserNotFound))
                && (userId in old(users) && !target.Str? ==> r == Fail(InvalidDocumentId))
                && (userId in old(users) && target.Str? && target.s !in old(users) ==> r == Fail(UserToFollowNotFound))
                && (userId in old(users) && target.Str? && target.s in old(users) && !Storable(Get(body.value, "username")) ==>
                      r == Fail(IntegerOutOfRange))
                && (userId in old(users) && target.Str? && target.s in old(users) && Storable(Get(body.value, "username")) ==>
                      var follower := old(users)[userId];
                      var edge := FollowEdge(target.s, Get(body.value, "username"));
                      && r == Pass
                      && users == old(users)[userId := follower.(following := Some(ArrayUnion(follower.following.GetOr([]), edge)))])
    {
      if MissingBody(body) {
        return Fail(MissingRequestBody);
      }
      var data := body.value;
      var target := Get(data, "user_id");
      var username := Get(data, "username");
      if !Truthy(target) || !Truthy(username) {
        return Fail(MissingFollowFields);
      }
      if userId !in users {
        return Fail(UserNotFound);
      }
      if !target.Str? {
        return Fail(InvalidDocumentId);
      }
      if target.s !in users {
        return Fail(UserToFollowNotFound);
      }
      if !Storable(username) {
        return Fail(IntegerOutOfRange);
      }
      var follower := users[userId];
      var edges := ArrayUnion(follower.following.GetOr([]), FollowEdge(target.s, username));
      users := users[userId := follower.(following := Some(edges))];
      r := Pass;
    }

    /** `favorite_band` (main.py:109-147): checks the body and the user,
        creates the favourites document when missing, then writes back the
        toggled list; a list holding an integer beyond 64 bits makes that
        write raise after the document was created. */
    method FavoriteBand(userId: string, festivalId: string, body: Option<Body>) returns (r: Outcome)
      requires Valid()
      modifies this
      ensures Valid()
      ensures users == old(users) && festivals == old(festivals)
      ensures r.Fail? && r.error != IntegerOutOfRange ==> favorites == old(favorites)
      ensures MissingBody(body) ==> r == Fail(MissingRequestBody)
      ensures !MissingBody(body) && !HasFavoriteFields(body.value) ==> r == Fail(MissingFavoriteFields)
      ensures !MissingBody(body) && HasFavoriteFields(body.value) && userId !in users ==> r == Fail(UserNotFound)
      ensures !MissingBody(body) && HasFavoriteFields(body.value) && userId in users ==>
                var want := Truthy(Get(body.value, "favorite"));
                var entry := EntryOf(body.value);
                var start := FavoritesOf(old(favorites), userId, festivalId);
                var toggled := Toggle(start, entry, want);
                && (StorableEntries(toggled) ==>
                      r == Pass && favorites == old(favorites)[(userId, festivalId) := toggled])
                && (!StorableEntries(toggled) ==>
                      r == Fail(IntegerOutOfRange) && favorites == old(favorites)[(userId, festivalId) := start])
                && ((userId, festivalId) !in old(favorites) && want && r == Pass ==> favorites[(userId, festivalId)] == [entry])
    {
      if MissingBody(body) {
        return Fail(MissingRequestBody);
      }
      var data := body.value;
      if !HasFavoriteFields(data) {
        return Fail(MissingFavoriteFields);
      }
      if userId !in users {
        return Fail(UserNotFound);
      }
      r := ToggleFavorite(userId, festivalId, EntryOf(data), Truthy(Get(data, "favorite")));
    }

    /** main.py:127-147, once the request was checked: create the document
        when missing, toggle the entry, write the list back. */
    method ToggleFavorite(userId: string, festivalId: string, entry: FavoriteKey, want: bool) returns (r: Outcome)
      requires Valid()
      modifies this
      ensures Valid()
      ensures users == old(users) && festivals == old(festivals)
      ensures var start := FavoritesOf(old(favorites), userId, festivalId);
              var toggled := Toggle(start, entry, want);
              && (StorableEntries(toggled) ==>
                    r == Pass && favorites == old(favorites)[(userId, festivalId) := toggled])
              && (!StorableEntries(toggled) ==>
                    r == Fail(IntegerOutOfRange) && favorites == old(favorites)[(userId, festivalId) := start])
    {
      ghost var start := FavoritesOf(favorites, userId, festivalId);
      if (userId, festivalId) !in favorites {
        WriteFavorites(userId, festivalId, []);
      }
      var bands := favorites[(userId, festivalId)];
      assert bands == start;
      if want {
        if !Listed(bands, entry) {
          bands := bands + [entry];
        }
      } else {
        if Listed(bands, entry) {
          bands := RemoveFirst(bands, entry);
        }
      }
      assert bands == Toggle(start, entry, want);
      if !StorableEntries(bands) {
        return Fail(IntegerOutOfRange);
      }
      WriteFavorites(userId, festivalId, bands);
      r := Pass;
    }

    /** The update at main.py:145: the favourites document gets a list that
        keeps the store's invariant. */
    method WriteFavorites(userId: string, festivalId: string, bands: seq<FavoriteKey>)
      requires Valid() && Distinct(bands) && StorableEntries(bands)
      modifies this
      ensures Valid()
      ensures users == old(users) && festivals == old(festivals)
      ensures favorites == old(favorites)[(userId, festivalId) := bands]
    {
      favorites := favorites[(userId, festivalId) := bands];
    }

    /** main.py:175-184: the followed users that have a favourites document
        for the festival, in the order the loop inserts them, with their
        favourite lists. */
    method FollowedFavorites(following: seq<FollowEdge>, festivalId: string)
      returns (followedIds: seq<string>, followedBands: map<string, seq<FavoriteKey>>)
      ensures followedIds == FollowedWithDocs(following, favorites, festivalId)
      ensures forall u :: u in followedBands <==> u in followedIds
      ensures forall u :: u in followedBands ==>
                (u, festivalId) in favorites && followedBands[u] == favorites[(u, festivalId)]
    {
      followedIds, followedBands := [], map[];
      var i := 0;
      while i < |following|
        invariant 0 <= i <= |following|
        invariant followedIds == FollowedWithDocs(following[..i], favorites, festivalId)
        invariant forall u :: u in followedBands <==> u in followedIds
        invariant forall u :: u in followedBands ==>
                    (u, festivalId) in favorites && followedBands[u] == favorites[(u, festivalId)]
      {
        var followedUserId := following[i].userId;
        assert following[..i + 1][..i] == following[..i];
        if (followedUserId, festivalId) in favorites {
          if followedUserId !in followedBands {
            followedIds := followedIds + [followedUserId];
          }
          followedBands := followedBands[followedUserId := favorites[(followedUserId, festivalId)]];
        }
        i := i + 1;
      }
      assert following[..i] == following;
    }

    /** main.py:192-216: one band copied from the lineup with the requester's
        flag and the followed users who favourited it. */
    method AnnotateBand(festivalId: string, mine: seq<FavoriteKey>, following: seq<FollowEdge>,
                        followedIds: seq<string>, followedBands: map<string, seq<FavoriteKey>>,
                        day: string, band: Band) returns (view: BandView)
      requires followedIds == FollowedWithDocs(following, favorites, festivalId)
      requires forall u :: u in followedIds ==>
                 u in followedBands && followedBands[u] == FavoritesOf(favorites, u, festivalId)
      ensures view == ViewBand(Overlay(festivalId, mine, following, favorites), day, band)
    {
      var key := KeyOf(day, band.bandId);
      var followers: seq<FollowEdge> := [];
      var k := 0;
      while k < |followedIds|
        invariant 0 <= k <= |followedIds|
        invariant followers == FollowersAmong(followedIds[..k], following, favorites, festivalId, key)
      {
        var followedUserId := followedIds[k];
        assert followedIds[..k + 1][..k] == followedIds[..k];
        if key in followedBands[followedUserId] {
          var followed := FirstEdge(following, followedUserId);
          if followed.Some? {
            followers := followers + [FollowEdge(followedUserId, followed.value.username)];
          }
        }
        k := k + 1;
      }
      assert followedIds[..k] == followedIds;
      view := BandView(band.bandId, band.bandName, band.startTime, band.endTime, band.scenario,
                       key in mine, followers);
    }

    /** main.py:186-218: one festival day, its bands annotated in order. */
    method AnnotatePresentation(festivalId: string, mine: seq<FavoriteKey>, following: seq<FollowEdge>,
                                followedIds: seq<string>, followedBands: map<string, seq<FavoriteKey>>,
                                presentation: Presentation) returns (view: PresentationView)
      requires followedIds == FollowedWithDocs(following, favorites, festivalId)
      requires forall u :: u in followedIds ==>
                 u in followedBands && followedBands[u] == FavoritesOf(favorites, u, festivalId)
      ensures view == ViewPresentation(Overlay(festivalId, mine, following, favorites), presentation)
    {
      ghost var o := Overlay(festivalId, mine, following, favorites);
      var day := presentation.presentationDay;
      var bands: seq<BandView> := [];
      var b := 0;
      while b < |presentation.bands|
        invariant 0 <= b <= |presentation.bands|
        invariant |bands| == b
        invariant forall q :: 0 <= q < b ==> bands[q] == ViewBand(o, day, presentation.bands[q])
      {
        var bandView := AnnotateBand(festivalId, mine, following, followedIds, followedBands, day, presentation.bands[b]);
        bands := bands + [bandView];
        b := b + 1;
      }
      view := PresentationView(day, bands);
    }

    /** `get_user_schedule` (main.py:150-220): the user is checked before the
        festival, then the lineup is annotated day by day. */
    method GetUserSchedule(userId: string, festivalId: string) returns (r: Result<ScheduleView>)
      ensures r == BuildSchedule(users, festivals, favorites, userId, festivalId)
    {
      if userId !in users {
        return Failure(UserNotFound);
      }
      if festivalId !in festivals {
        return Failure(FestivalNotFound);
      }
      var mine := FavoritesOf(favorites, userId, festivalId);
      var festival := festivals[festivalId];
      var following := FollowingOf(users, userId);
      var followedIds, followedBands := FollowedFavorites(following, festivalId);

      ghost var o := Overlay(festivalId, mine, following, favorites);
      var presentations: seq<PresentationView> := [];
      var p := 0;
      while p < |festival.presentations|
        invariant 0 <= p <= |festival.presentations|
        invariant |presentations| == p
        invariant forall q :: 0 <= q < p ==> presentations[q] == ViewPresentation(o, festival.presentations[q])
      {
        var view := AnnotatePresentation(festivalId, mine, following, followedIds, followedBands, festival.presentations[p]);
        presentations := presentations + [view];
        p := p + 1;
      }
      assert presentations == seq(|festival.presentations|, i requires 0 <= i < |festival.presentations| =>
                                    ViewPresentation(o, festival.presentations[i]));
      r := Success(ScheduleView(festivalId, festival.festivalName.GetOr(""), festival.dates.GetOr([]), presentations));
    }

    /** `get_user_following` (main.py:354-363): the stored edges, or an error
        when the user or the field is missing. */
    method GetUserFollowing(userId: string) returns (r: Result<seq<FollowEdge>>)
      requires Valid()
      ensures r.Success? <==> userId in users && users[userId].following.Some?
      ensures r.Failure? ==> r.error == NoFollowingData
      ensures r.Success? ==> r.value == users[userId].following.value && NoDup(r.value)
    {
      if userId in users && users[userId].following.Some? {
        r := Success(users[userId].following.value);
      } else {
        r := Failure(NoFollowingData);
      }
    }

    /** `unfollow_user` (main.py:366-381): drops every edge to the user and
        succeeds only when at least one was dropped. */
    method UnfollowUser(userId: string, followingId: string) returns (r: Outcome)
      requires Valid()
      modifies this
      ensures Valid()
      ensures festivals == old(festivals) && favorites == old(favorites)
      ensures userId !in old(users) || old(users)[userId].following.None? ==>
                r == Fail(NoFollowingData) && users == old(users)
      ensures userId in old(users) && old(users)[userId].following.Some? ==>
                var user := old(users)[userId];
                var edges := user.following.value;
                && (HasEdgeTo(edges, followingId) ==>
                      r == Pass && users == old(users)[userId := user.(following := Some(WithoutUser(edges, followingId)))])
                && (!HasEdgeTo(edges, followingId) ==>
                      r == Fail(NotInFollowingList(followingId)) && users == old(users))
    {
      if userId !in users || users[userId].following.None? {
        return Fail(NoFollowingData);
      }
      var user := users[userId];
      var edges := user.following.value;
      var updated := WithoutUser(edges, followingId);
      WithoutUserShortens(edges, followingId);
      WithoutUserNoDup(edges, followingId);
      if |updated| != |edges| {
        users := users[userId := user.(following := Some(updated))];
        r := Pass;
      } else {
        r := Fail(NotInFollowingList(followingId));
      }
    }
  }
}
