/** The personalised schedule of `get_user_schedule` (main.py:149-220): the
    festival lineup, each band marked with the requester's own favourite
    flag and with the followed users who also marked it. */
module Schedule {
  import opened Documents
  import opened Follows
  import opened Favorites

  datatype BandView = BandView(
    bandId: string, bandName: string, startTime: string, endTime: string, stage: string,
    favorite: bool, following: seq<FollowEdge>)

  datatype PresentationView = PresentationView(presentationDay: string, bands: seq<BandView>)

  datatype ScheduleView = ScheduleView(
    festivalId: string, festivalName: string, festivalDates: seq<string>,
    presentations: seq<PresentationView>)

  /** What one request overlays on the lineup: the festival asked for, the
      requester's own favourites, the requester's following edges and the
      favourites documents of all users. */
  datatype Overlay = Overlay(
    festivalId: string, mine: seq<FavoriteKey>, following: seq<FollowEdge>,
    favorites: FavoritesStore)

  /** The favourite entry a band of a festival day is looked up by. */
  function KeyOf(day: string, bandId: string): FavoriteKey {
    FavoriteKey(Str(day), Str(bandId))
  }

  /** The user ids of a list of edges, in order. */
  function UserIds(edges: seq<FollowEdge>): (ids: seq<string>)
    ensures |ids| == |edges| && forall i :: 0 <= i < |edges| ==> ids[i] == edges[i].userId
  {
    seq(|edges|, i requires 0 <= i < |edges| => edges[i].userId)
  }

  /** Every id is followed, and the ids come in the order of their first
      edge in `edges` (so none repeats). */
  predicate InFollowOrder(ids: seq<string>, edges: seq<FollowEdge>) {
    && (forall i :: 0 <= i < |ids| ==> HasEdgeTo(edges, ids[i]))
    && (forall i, j :: 0 <= i < j < |ids| ==> FirstIndex(edges, ids[i]) < FirstIndex(edges, ids[j]))
  }

  /** The keys of the followed users' favourites table as the loop at
      main.py:177-184 inserts them: a followed user with a favourites
      document for the festival, at the position of their first edge. */
  function FollowedWithDocs(edges: seq<FollowEdge>, favorites: FavoritesStore, festivalId: string): (ids: seq<string>)
    ensures forall u :: u in ids <==> HasEdgeTo(edges, u) && (u, festivalId) in favorites
    ensures InFollowOrder(ids, edges)
  {
    if edges == [] then []
    else
      var init := edges[..|edges| - 1];
      var prev := FollowedWithDocs(init, favorites, festivalId);
      var u := edges[|edges| - 1].userId;
      HasEdgeToSnoc(edges);
      if (u, festivalId) in favorites && u !in prev then prev + [u] else prev
  }

  /** The `following` annotation of the band with favourite entry `key`:
      the inner loop at main.py:205-214 over the followed users `ids`. Each
      entry is the first edge to a followed user whose favourites hold `key`. */
  function FollowersAmong(ids: seq<string>, edges: seq<FollowEdge>, favorites: FavoritesStore,
                          festivalId: string, key: FavoriteKey): (r: seq<FollowEdge>)
    ensures forall e :: e in r <==>
              e.userId in ids && key in FavoritesOf(favorites, e.userId, festivalId) && FirstEdge(edges, e.userId) == Some(e)
  {
    if ids == [] then []
    else
      var prev := FollowersAmong(ids[..|ids| - 1], edges, favorites, festivalId, key);
      var u := ids[|ids| - 1];
      assert forall v :: v in ids <==> v in ids[..|ids| - 1] || v == u by {
        assert ids == ids[..|ids| - 1] + [u];
      }
      if key in FavoritesOf(favorites, u, festivalId) then
        match FirstEdge(edges, u)
        case Some(followed) => prev + [FollowEdge(u, followed.username)]
        case None => prev
      else prev
  }

  /** The annotated copy of one band (main.py:192-216). */
  function ViewBand(o: Overlay, day: string, band: Band): BandView {
    var key := KeyOf(day, band.bandId);
    BandView(band.bandId, band.bandName, band.startTime, band.endTime, band.scenario,
             key in o.mine,
             FollowersAmong(FollowedWithDocs(o.following, o.favorites, o.festivalId),
                            o.following, o.favorites, o.festivalId, key))
  }

  /** The annotated copy of one festival day (main.py:186-218). */
  function ViewPresentation(o: Overlay, p: Presentation): PresentationView {
    PresentationView(p.presentationDay,
      seq(|p.bands|, j requires 0 <= j < |p.bands| => ViewBand(o, p.presentationDay, p.bands[j])))
  }

  /** The whole answer of the schedule endpoint for `userId` and `festivalId`
      over the given store contents (main.py:151-220). */
  function BuildSchedule(users: map<string, User>, festivals: map<string, Festival>, favorites: FavoritesStore,
                         userId: string, festivalId: string): (r: Result<ScheduleView>)
    ensures r.Success? <==> userId in users && festivalId in festivals
    ensures r.Failure? ==> r.error == (if userId !in users then UserNotFound else FestivalNotFound)
    ensures r.Success? ==> r.value.festivalId == festivalId
                           && |r.value.presentations| == |festivals[festivalId].presentations|
  {
    if userId !in users then Failure(UserNotFound)
    else if festivalId !in festivals then Failure(FestivalNotFound)
    else
      var festival := festivals[festivalId];
      var o := Overlay(festivalId, FavoritesOf(favorites, userId, festivalId),
                       FollowingOf(users, userId), favorites);
      Success(ScheduleView(festivalId, festival.festivalName.GetOr(""), festival.dates.GetOr([]),
        seq(|festival.presentations|, i requires 0 <= i < |festival.presentations| =>
          ViewPresentation(o, festival.presentations[i]))))
  }

  /** The requester's following edges as the schedule reads them, an absent
      field as no edges (main.py:175). */
  function FollowingOf(users: map<string, User>, userId: string): seq<FollowEdge>
    requires userId in users
  {
    users[userId].following.GetOr([])
  }

  /** The followers kept for a band come in the order of their first edge. */
  lemma {:induction false} FollowersInFollowOrder(ids: seq<string>, edges: seq<FollowEdge>, favorites: FavoritesStore,
                                                  festivalId: string, key: FavoriteKey)
    requires InFollowOrder(ids, edges)
    ensures InFollowOrder(UserIds(FollowersAmong(ids, edges, favorites, festivalId, key)), edges)
  {
    if ids != [] {
      var init := ids[..|ids| - 1];
      var u := ids[|ids| - 1];
      var prev := FollowersAmong(init, edges, favorites, festivalId, key);
      FollowersInFollowOrder(init, edges, favorites, festivalId, key);
      var r := FollowersAmong(ids, edges, favorites, festivalId, key);
      if r != prev {
        assert r == prev + [FollowEdge(u, FirstEdge(edges, u).value.username)];
        forall i | 0 <= i < |prev| ensures FirstIndex(edges, prev[i].userId) < FirstIndex(edges, u) {
          assert prev[i] in prev;
          var k :| 0 <= k < |init| && init[k] == prev[i].userId;
          assert ids[k] == init[k];
        }
        assert UserIds(r) == UserIds(prev) + [u];
      }
    }
  }

  /** A missing user is reported before the festival is looked at; only then
      is a missing festival reported (main.py:151-161). */
  lemma ScheduleErrorOrder(users: map<string, User>, festivals: map<string, Festival>, favorites: FavoritesStore,
                           userId: string, festivalId: string)
    ensures userId !in users ==> BuildSchedule(users, festivals, favorites, userId, festivalId) == Failure(UserNotFound)
    ensures userId in users && festivalId !in festivals ==>
              BuildSchedule(users, festivals, favorites, userId, festivalId) == Failure(FestivalNotFound)
    ensures BuildSchedule(users, festivals, favorites, userId, festivalId).Success? <==>
              userId in users && festivalId in festivals
  {
  }

  /** The schedule copies the lineup: one day per stored day and one band per
      stored band, in stored order, with id, name, times and stage copied;
      a missing name or date list reads as "" or [] (main.py:168-173, 186-218). */
  lemma ScheduleFollowsLineup(users: map<string, User>, festivals: map<string, Festival>, favorites: FavoritesStore,
                              userId: string, festivalId: string, i: nat, j: nat)
    requires userId in users && festivalId in festivals
    requires i < |festivals[festivalId].presentations|
    requires j < |festivals[festivalId].presentations[i].bands|
    ensures var s := BuildSchedule(users, festivals, favorites, userId, festivalId);
            var f := festivals[festivalId];
            && s.Success?
            && s.value.festivalId == festivalId
            && s.value.festivalName == (if f.festivalName.Some? then f.festivalName.value else "")
            && s.value.festivalDates == (if f.dates.Some? then f.dates.value else [])
            && |s.value.presentations| == |f.presentations|
            && s.value.presentations[i].presentationDay == f.presentations[i].presentationDay
            && |s.value.presentations[i].bands| == |f.presentations[i].bands|
            && var b := s.value.presentations[i].bands[j];
               var src := f.presentations[i].bands[j];
               b.bandId == src.bandId && b.bandName == src.bandName && b.startTime == src.startTime
               && b.endTime == src.endTime && b.stage == src.scenario
  {
  }

  /** A band is the requester's favourite exactly when its day and id are in
      the requester's favourites document, read as empty when there is none
      (main.py:163-166, 201). */
  lemma FavoriteFlag(users: map<string, User>, festivals: map<string, Festival>, favorites: FavoritesStore,
                     userId: string, festivalId: string, i: nat, j: nat)
    requires userId in users && festivalId in festivals
    requires i < |festivals[festivalId].presentations|
    requires j < |festivals[festivalId].presentations[i].bands|
    ensures var p := festivals[festivalId].presentations[i];
            var flag := BuildSchedule(users, festivals, favorites, userId, festivalId).value.presentations[i].bands[j].favorite;
            var key := KeyOf(p.presentationDay, p.bands[j].bandId);
            && (flag <==> (userId, festivalId) in favorites && key in favorites[(userId, festivalId)])
            && (flag <==> Listed(FavoritesOf(favorites, userId, festivalId), key))
  {
    var p := festivals[festivalId].presentations[i];
    StringEntryListed(FavoritesOf(favorites, userId, festivalId), p.presentationDay, p.bands[j].bandId);
  }

  /** The `following` of a band lists followed user u exactly when u is in
      the requester's edges, u has a favourites document for the festival and
      it holds the band's day and id; the entry is u's first edge, so its
      username is the cached one; and the entries come in the order of first
      edges (main.py:175-184, 205-214). */
  lemma FollowingAnnotation(users: map<string, User>, festivals: map<string, Festival>, favorites: FavoritesStore,
                            userId: string, festivalId: string, i: nat, j: nat)
    requires userId in users && festivalId in festivals
    requires i < |festivals[festivalId].presentations|
    requires j < |festivals[festivalId].presentations[i].bands|
    ensures var p := festivals[festivalId].presentations[i];
            var key := KeyOf(p.presentationDay, p.bands[j].bandId);
            var edges := FollowingOf(users, userId);
            var annotated := BuildSchedule(users, festivals, favorites, userId, festivalId).value.presentations[i].bands[j].following;
            && (forall e :: e in annotated <==>
                  && HasEdgeTo(edges, e.userId)
                  && (e.userId, festivalId) in favorites
                  && key in favorites[(e.userId, festivalId)]
                  && e == edges[FirstIndex(edges, e.userId)])
            && InFollowOrder(UserIds(annotated), edges)
  {
    var p := festivals[festivalId].presentations[i];
    var key := KeyOf(p.presentationDay, p.bands[j].bandId);
    var edges := FollowingOf(users, userId);
    var ids := FollowedWithDocs(edges, favorites, festivalId);
    FollowersInFollowOrder(ids, edges, favorites, festivalId, key);
  }

  /** With no followed users every band's `following` is empty. */
  lemma NoFollowingNoAnnotations(users: map<string, User>, festivals: map<string, Festival>, favorites: FavoritesStore,
                                 userId: string, festivalId: string, i: nat, j: nat)
    requires userId in users && festivalId in festivals
    requires FollowingOf(users, userId) == []
    requires i < |festivals[festivalId].presentations|
    requires j < |festivals[festivalId].presentations[i].bands|
    ensures BuildSchedule(users, festivals, favorites, userId, festivalId).value.presentations[i].bands[j].following == []
  {
  }

  /** The band b1 of the example below, as A sees it. */
  lemma ExampleBandView(edges: seq<FollowEdge>, favorites: FavoritesStore, band: Band)
    requires edges == [FollowEdge("B", Str("B"))]
    requires favorites == map[("B", "F") := [FavoriteKey(Str("Friday"), Str("b1"))]]
    requires band == Band("b1", "One", "t0", "t1", "Main")
    ensures ViewBand(Overlay("F", [], edges, favorites), "Friday", band)
              == BandView("b1", "One", "t0", "t1", "Main", false, [FollowEdge("B", Str("B"))])
  {
    assert HasEdgeTo(edges, "B") by { assert edges[0].userId == "B"; }
    assert FollowedWithDocs(edges, favorites, "F") == ["B"];
    assert FollowersAmong(["B"], edges, favorites, "F", KeyOf("Friday", "b1")) == [FollowEdge("B", Str("B"))];
  }

  /** The festival day of the example below, as A sees it. */
  lemma ExampleDayView(o: Overlay, day: Presentation)
    requires o == Overlay("F", [], [FollowEdge("B", Str("B"))], map[("B", "F") := [FavoriteKey(Str("Friday"), Str("b1"))]])
    requires day == Presentation("Friday", [Band("b1", "One", "t0", "t1", "Main")])
    ensures ViewPresentation(o, day)
              == PresentationView("Friday", [BandView("b1", "One", "t0", "t1", "Main", false, [FollowEdge("B", Str("B"))])])
  {
    ExampleBandView(o.following, o.favorites, day.bands[0]);
    assert ViewPresentation(o, day).bands[0] == ViewBand(o, "Friday", day.bands[0]);
  }

  /** User A follows B and B favourites ("Friday", "b1"): A sees b1 as not
      A's own favourite, followed by B under the cached name "B". */
  lemma FollowedFavoriteExample()
    ensures var festival := Festival(Some("Fest"), None, [Presentation("Friday", [Band("b1", "One", "t0", "t1", "Main")])]);
            var users := map["A" := User(Str("A"), Some([FollowEdge("B", Str("B"))])), "B" := User(Str("B"), Some([]))];
            var favorites := map[("B", "F") := [FavoriteKey(Str("Friday"), Str("b1"))]];
            BuildSchedule(users, map["F" := festival], favorites, "A", "F")
              == Success(ScheduleView("F", "Fest", [], [PresentationView("Friday",
                   [BandView("b1", "One", "t0", "t1", "Main", false, [FollowEdge("B", Str("B"))])])]))
  {
    var edges := [FollowEdge("B", Str("B"))];
    var day := Presentation("Friday", [Band("b1", "One", "t0", "t1", "Main")]);
    var festival := Festival(Some("Fest"), None, [day]);
    var users := map["A" := User(Str("A"), Some(edges)), "B" := User(Str("B"), Some([]))];
    var favorites := map[("B", "F") := [FavoriteKey(Str("Friday"), Str("b1"))]];
    var o := Overlay("F", [], edges, favorites);
    ExampleDayView(o, day);
    assert FavoritesOf(favorites, "A", "F") == [];
    assert FollowingOf(users, "A") == edges;
    var s := BuildSchedule(users, map["F" := festival], favorites, "A", "F");
    assert s.value.presentations == [ViewPresentation(o, day)];
  }
}
