# Festival schedule backend: a Dafny model

This project models the core of a backend for a festival app. Users register
and follow other users. Each user marks favourite bands per festival. The
backend then serves a personalised schedule: the festival lineup, with every
band flagged when the requester favourited it and listing the followed users
who favourited it too.

The document store becomes the class `FestStore.Store` with three maps:

- `users` holds `users/{id}`;
- `festivals` holds `festivals/{id}`;
- `favorites` holds `users/{id}/festivals/{festivalId}`, keyed by the pair of ids.

Each HTTP handler of the core becomes one method of that class. It takes the
path parameters, query parameters and JSON body as arguments. It answers with
a `Result` or `Outcome` that carries the error the handler returns.
`Documents.Status` gives each error its HTTP status.

The pure logic sits in modules of functions and lemmas:

- `Favorites`: the favourite toggle on a list used as a set.
- `Follows`: the following list. Follow is an array union. Unfollow is a filter by user id.
- `Search`: the username range query of the user search.
- `Schedule`: the personalised schedule as a function, `BuildSchedule`, with its properties as lemmas.
  `Store.GetUserSchedule` runs the handler's nested loops and is proved equal to `BuildSchedule`.

`Store.Valid()` is the invariant that every handler keeps: no following list
holds the same value twice, no favourites list holds two entries equal under
Python's `==`, and every stored integer fits in 64 bits.

Behaviour of the code worth knowing:

- The user search does not find every username that starts with the query.
  It finds those in the range from the query up to the query followed by
  U+F8FF. That range leaves out a username whose next character after the
  query is U+F8FF or later, such as an emoji (`Search.PrefixRangeMeansPrefix`,
  `Search.RangeMissesHighContinuation`).
- Unfollow removes every edge to the given user, not only one.
- Following is an array union on whole values. So re-following a user under
  a new username adds a second edge to the same user
  (`Follows.RefollowAddsSecondEdge`). The schedule shows the username of the
  first edge.
- Favourite entries are compared with Python's `==` on dicts (main.py:139,
  142-143). In Python `True == 1` and `False == 0`, so an entry sent with
  `band_id` true matches a stored entry with `band_id` 1
  (`Favorites.TrueMatchesOne`). The store itself compares by type, which
  matters for the array union of a follow and for the username query of
  `create_user`: a username `true` does not find a user stored with `1`.
- The schedule looks entries up by the string day and string band id of the
  lineup. For such a key Python's `in` is plain structural membership
  (`Favorites.StringEntryListed`).
- The store encodes integers as signed 64-bit values. Encoding an integer
  beyond that range makes the store client raise, and nothing catches it, so
  the answer is status 500 (`IntegerOutOfRange`). For `create_user` and
  `follow_user` this happens with such a username. For `favorite_band` it
  happens at the final update (main.py:145), after a missing favourites
  document was already created (main.py:131), and only when the toggle
  appends an entry whose `presentation_day` or `band_id` is such an integer;
  a false toggle never raises (`FestStore.OverflowOnlyOnAppend`).
- A followed user without a favourites document is skipped (main.py:183).
  It is not kept with an empty list. Either way it adds no annotation.
- The favourite toggle does not check that the festival exists.
- No handler reports a store failure as an error of its own.
- A follow body with a truthy non-string `user_id` passes the body check. The
  store client then refuses it as a document id, and nothing catches that
  error. The model answers `InvalidDocumentId`, status 500.
- The lines after the first `return` of `get_user_schedule` (main.py:222-351)
  never run. Only main.py:151-220 is modelled.

## Model

| member | source | states |
|---|---|---|
| `Documents.Truthy` | main.py:84-85 | Python's `not`: a value is falsy exactly when it is None, False, 0 or the empty string |
| `Documents.MissingBody` | main.py:78-79 | `if not data`: a body counts as present exactly when it exists and has at least one key |
| `Documents.Numeric` | main.py:139 | the value Python's `==` compares is never a boolean and has the same truthiness as the original |
| `Documents.PyEqExamples` | main.py:139 | `PyEq` is Python's `==` on scalars: `True == 1` and `False == 0` hold, `True == "1"` and `True == 2` do not, and a string equals only the same string |
| `Documents.Status` | main.py:34-381 | the handlers' error statuses: 400 exactly for the five body and parameter errors, 500 exactly for the two uncaught store-client errors, 404 otherwise |
| `Favorites.EntryKey` | main.py:136-139 | the compared form of an entry is Python-equal to it field by field and holds no boolean |
| `Favorites.ListedMeansMatch` | main.py:139-142 | `Listed`, Python's `entry in bands`, holds exactly when some stored entry equals it on both fields under Python's `==` |
| `Favorites.StringEntryListed` | main.py:201-208 | for a key of two strings, Python's `in` on the list is plain structural membership |
| `Favorites.RemoveFirst` | main.py:142-143 | `list.remove` after a membership test: a list without an equal entry is unchanged; otherwise it is exactly one entry shorter |
| `Favorites.RemoveFirstSplits` | main.py:142-143 | `list.remove` drops the first entry equal to the argument under Python's `==` and keeps every other entry in place |
| `Favorites.RemoveFirstMembers` | main.py:142-143 | removing an entry changes no other entry's membership; on a list without Python-equal pairs the entry is gone afterwards and the list keeps that property |
| `Favorites.Toggle` | main.py:136-145 | membership is Python's `in`: every entry not equal to the key keeps its membership; `favorite` true puts the key in; on a list without Python-equal pairs the key is in exactly when `favorite` is true and the list keeps that property; the result holds only old entries and the key |
| `Favorites.ToggleKeepsOrder` | main.py:138-145 | toggling on keeps the old list as a prefix and appends the key exactly when no equal entry is there, and leaves any list already holding an equal entry unchanged, duplicates or not; toggling off removes the first equal entry in place, and leaves a list without one unchanged |
| `Favorites.ToggleIdempotent` | main.py:138-145 | repeating the same toggle on a list without Python-equal pairs changes nothing |
| `Favorites.RemoveKeepsLaterCopy` | main.py:142-143 | on a list holding an entry twice, a false toggle removes only the first copy |
| `Favorites.TrueMatchesOne` | main.py:136-143 | an entry sent with `band_id` true removes a stored entry with `band_id` 1, and toggling it on adds nothing |
| `Follows.FirstIndex` | main.py:209 | the position of the first edge to a user: that edge points at the user and no earlier edge does |
| `Follows.FirstEdge` | main.py:209 | `next(...)` finds an edge exactly when the list has one to the user, and it is the first such edge: no earlier edge points at the user |
| `Follows.ArrayUnion` | main.py:99-104 | the new list holds the old edges and the new edge and nothing else; the old list is a prefix of it, with at most one more edge; a value already present leaves the list unchanged; no duplicate is introduced |
| `Follows.WithoutUser` | main.py:372 | the filtered list holds exactly the edges whose user id differs, and is no longer than the old list |
| `Follows.WithoutUserShortens` | main.py:372-374 | the filtered list is as long as the old one exactly when no edge pointed at the user |
| `Follows.WithoutUserNoDup` | main.py:372 | filtering a duplicate-free list gives a duplicate-free list |
| `Follows.WithoutUserAppend` | main.py:372 | the filter splits over concatenation, so the remaining edges keep their original order |
| `Follows.WithoutAbsentUser` | main.py:372-379 | filtering out a user with no edge gives back the list unchanged |
| `Follows.FollowThenUnfollow` | main.py:372-376 | following a user who was not followed and then unfollowing them gives back the original list |
| `Follows.RefollowAddsSecondEdge` | main.py:99-104 | re-following a user under another username adds a second edge to that user |
| `Search.PrefixRangeMeansPrefix` | main.py:65-66 | `InPrefixRange`, the two range filters of the query, holds of a username exactly when it starts with the query and ends there or goes on with a character below U+F8FF |
| `Search.RangeMissesHighContinuation` | main.py:65-66 | a username that goes on after the query with U+F8FF or a later character is not found |
| `Search.SearchExample` | main.py:65-66 | the query "ban" finds "band_fan" and "banker" and not "zzz" |
| `Schedule.BuildSchedule` | main.py:151-220 | the schedule is built exactly when both the user and the festival exist; otherwise the error is "User not found" when the user is missing and "Festival not found" when only the festival is; the schedule carries the festival id and one day per stored day |
| `Schedule.FollowedWithDocs` | main.py:177-184 | the table of followed favourites holds exactly the followed users with a favourites document for the festival, each once, in the order of their first edge |
| `Schedule.FollowersAmong` | main.py:205-214 | a band's annotation holds an edge exactly when its user is among the given followed users, their favourites hold the band, and it is that user's first edge |
| `Schedule.FollowersInFollowOrder` | main.py:205-214 | the annotation keeps the order of the followed users, so its users come in the order of their first edge |
| `Schedule.ScheduleErrorOrder` | main.py:151-161 | a missing user gives "User not found" whatever the festival; only then does a missing festival give "Festival not found"; otherwise the schedule is built |
| `Schedule.ScheduleFollowsLineup` | main.py:167-218 | `ViewPresentation` and `ViewBand`, the day and band records the loops build, give one output day per stored day and one output band per stored band, in stored order; the id, name, times and stage (from `scenario`) are copied; a missing name or date list reads as "" or [] |
| `Schedule.FavoriteFlag` | main.py:163-201 | a band's `favorite` is true exactly when the requester's favourites document exists and holds the band's day and id, which is Python's `in` on that list |
| `Schedule.FollowingAnnotation` | main.py:175-214 | a band's `following` holds an entry for user u exactly when u is in the requester's edges, u has a favourites document for the festival, and that document holds the band; the entry is u's first edge, so it carries the cached username; the entries come in the order of first edges |
| `Schedule.NoFollowingNoAnnotations` | main.py:175-214 | a requester who follows nobody sees every band's `following` empty |
| `Schedule.FollowedFavoriteExample` | main.py:149-220 | A follows B and B favourites ("Friday", "b1"): A's schedule shows b1 with `favorite` false and `following` [{B, "B"}] |
| `FestStore.HasFollowFields` | main.py:81-85 | a follow body that passes the check has both a `user_id` and a `username` key |
| `FestStore.HasFavoriteFields` | main.py:115-120 | a favourite body that passes the check has `presentation_day`, `band_id` and `favorite` keys |
| `FestStore.EntryOf` | main.py:136 | the entry built from a body that passed the check has a truthy day and band id |
| `FestStore.OverflowOnlyOnAppend` | main.py:138-145 | starting from a list the store holds, the write fails on an integer beyond 64 bits exactly when the toggle appends an entry holding one |
| `FestStore.Store.LookupUsername` | main.py:40-45 | the lookup returns a user whose username is the given one, or None exactly when no user has it |
| `FestStore.Store.CreateUser` | main.py:34-54 | a missing or empty username gives 400; a username integer beyond 64 bits gives 500 and changes nothing; an existing username returns that user and changes nothing; otherwise a user with an empty following list is stored under the new id; every stored integer stays within 64 bits |
| `FestStore.Store.FindUsers` | main.py:58-72 | a missing query gives 400; otherwise the answer lists every user in the search range, with their stored username, once each, and no one else |
| `FestStore.Store.FollowUser` | main.py:75-106 | errors come in order: missing body, missing fields, follower not found, a target id that is not a string (500), target not found, a username integer beyond 64 bits (500). On success the edge is added by array union, and nothing else in the store changes |
| `FestStore.Store.FavoriteBand` | main.py:109-147 | errors come in order: missing body, missing fields or `favorite` None, user not found. Then the favourites document is created when missing. If the toggled list holds an integer beyond 64 bits, the answer is 500 and the document stays as created; otherwise it becomes the toggled list, so a first true toggle leaves exactly one entry. Nothing else changes |
| `FestStore.Store.ToggleFavorite` | main.py:127-147 | once the request is checked: the document is created when missing; the answer is 500 with the document left as created when the toggled list holds an integer beyond 64 bits, and otherwise the document becomes the toggled list; the invariant is kept |
| `FestStore.Store.WriteFavorites` | main.py:145 | the favourites document gets the new list, the store's invariant is kept, and nothing else changes |
| `FestStore.Store.FollowedFavorites` | main.py:175-184 | the loop builds exactly the table of followed users with favourites documents, in insertion order, with their favourite lists |
| `FestStore.Store.AnnotateBand` | main.py:192-216 | the loop over followed users builds exactly the annotated band of the schedule function |
| `FestStore.Store.AnnotatePresentation` | main.py:186-218 | the loop over a day's bands builds exactly the annotated day of the schedule function |
| `FestStore.Store.GetUserSchedule` | main.py:150-220 | the handler's answer equals `BuildSchedule` on the store contents, so every property of the schedule lemmas holds of it |
| `FestStore.Store.GetUserFollowing` | main.py:354-363 | the stored edges, duplicate-free, are returned when the user exists and has a following field; otherwise the answer is "User not found or has no following data" |
| `FestStore.Store.UnfollowUser` | main.py:366-381 | a missing user or field gives the no-following-data error. Otherwise the list becomes the edges to other users, in order. That succeeds exactly when some edge was removed; if none was, the "not in following list" error is returned and nothing changes |

## Left out

- `get_festival_data` (main.py:11-31) is not part of this model: it reads one festival document and formats its times.
- Flask routing, request parsing and `jsonify`. Handler inputs are arguments, and outputs are result values carrying the error.
- JSON body values other than null, booleans, integers and strings (floats, arrays, objects), and bodies that are not JSON objects. Python's `1 == 1.0` therefore does not arise.
- The conversion of start and end times to ISO-8601 (`isoformat`): times are opaque strings.
- The store client itself: connection, failures, timeouts and atomicity of updates. Each update is one sequential state change.
- Document ids containing "/". Stored documents whose fields have unexpected types or are missing, such as a festival without `presentations`, a band without a field, or a numeric `festival_name`: the model's types cannot hold these. A missing lineup field makes the source raise (main.py:186-200).
- A favourites document whose `favorite_bands` field is absent is modelled as an empty list. Every handler reads it that way.
- The random id of a new user: `CreateUser` takes the new id as an argument.
- `FestStore.Store.LookupUsername`: returns one of the users holding the username, not the last one in the store's document order, because that order is not modelled.
- `FestStore.Store.FindUsers`: does not state the order of the hits (the store sorts them by username), because query ordering is not modelled.
- The unreachable code after the first `return` of `get_user_schedule` (main.py:222-351).
- Process start-up and port configuration (main.py:384-385).
