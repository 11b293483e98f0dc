/** The documents of the festival app's store (users, festivals and the
    per-user, per-festival favourites), the scalar JSON values that arrive
    in request bodies, and the errors the HTTP handlers answer with. */
module Documents {

  datatype Option<T> = None | Some(value: T) {
    /** Python's `d.get(key, default)` once the lookup has been made. */
    function GetOr(default: T): T {
      match this
      case Some(v) => v
      case None => default
    }
  }

  /** A handler's answer: a value with a success status, or an error. */
  datatype Result<T> = Success(value: T) | Failure(error: Error)

  /** A handler's answer when success carries no value. */
  datatype Outcome = Pass | Fail(error: Error)

  /** A scalar JSON value of a request body; JSON `null` and a missing key
      both read as Python's `None`. */
  datatype Value = Null | Bool(b: bool) | Int(i: int) | Str(s: string)

  /** Python truthiness of a scalar JSON value: only None, False, 0 and
      the empty string are false. */
  predicate Truthy(v: Value): (t: bool)
    ensures t <==> v !in {Null, Bool(false), Int(0), Str("")}
  {
    match v
    case Null => false
    case Bool(b) => b
    case Int(i) => i != 0
    case Str(s) => s != ""
  }

  /** A JSON object body. */
  type Body = map<string, Value>

  /** `data.get(key)`. */
  function Get(data: Body, key: string): Value {
    if key in data then data[key] else Null
  }

  /** `if not data`: no body at all, or an empty object. */
  predicate MissingBody(body: Option<Body>): (missing: bool)
    ensures !missing <==> body.Some? && exists k :: k in body.value
  {
    body.None? || body.value == map[]
  }

  /** The value Python's `==` compares: `bool` is a subclass of `int`, so
      `True` and `False` compare as the integers 1 and 0. */
  function Numeric(v: Value): (n: Value)
    ensures !n.Bool? && (Truthy(n) <==> Truthy(v))
  {
    match v
    case Bool(b) => Int(if b then 1 else 0)
    case _ => v
  }

  /** Python's `==` on two scalar JSON values. */
  predicate PyEq(a: Value, b: Value) {
    Numeric(a) == Numeric(b)
  }

  /** `True == 1` and `False == 0` hold in Python, `True == "1"` does not,
      and a string is equal only to the same string. */
  lemma PyEqExamples(s: string, v: Value)
    ensures PyEq(Bool(true), Int(1)) && PyEq(Bool(false), Int(0))
    ensures !PyEq(Bool(true), Str("1")) && !PyEq(Bool(true), Int(2))
    ensures PyEq(Str(s), v) <==> v == Str(s)
  {
  }

  /** The store encodes an integer as a signed 64-bit value. */
  const Int64Min: int := -0x8000_0000_0000_0000
  const Int64Max: int := 0x7FFF_FFFF_FFFF_FFFF

  /** A value the store client can encode; a larger integer makes it raise. */
  predicate Storable(v: Value) {
    v.Int? ==> Int64Min <= v.i <= Int64Max
  }

  /** `{"presentation_day": ..., "band_id": ...}`: equal when both fields are. */
  datatype FavoriteKey = FavoriteKey(presentationDay: Value, bandId: Value)

  /** `{"user_id": ..., "username": ...}` in a user's `following` list; the
      username is the copy the follower sent, not a live reference. */
  datatype FollowEdge = FollowEdge(userId: string, username: Value)

  /** `users/{id}`; `following` is None when the field is absent. */
  datatype User = User(username: Value, following: Option<seq<FollowEdge>>)

  /** One band of a festival day; start and end times are kept opaque. */
  datatype Band = Band(bandId: string, bandName: string, startTime: string, endTime: string, scenario: string)

  datatype Presentation = Presentation(presentationDay: string, bands: seq<Band>)

  /** `festivals/{id}`; name and dates may be absent from the document. */
  datatype Festival = Festival(festivalName: Option<string>, dates: Option<seq<string>>, presentations: seq<Presentation>)

  /** `users/{userId}/festivals/{festivalId}`, keyed by (userId, festivalId). */
  type FavoritesStore = map<(string, string), seq<FavoriteKey>>

  /** The favourites of a user for a festival; a missing document is empty. */
  function FavoritesOf(favorites: FavoritesStore, userId: string, festivalId: string): seq<FavoriteKey> {
    if (userId, festivalId) in favorites then favorites[(userId, festivalId)] else []
  }

  predicate NoDup<T(==)>(s: seq<T>) {
    forall i, j :: 0 <= i < j < |s| ==> s[i] != s[j]
  }

  datatype Error =
    | MissingUsername            // "Missing username parameter"
    | MissingUserParameter       // "Missing 'user' parameter"
    | MissingRequestBody         // "Missing request body"
    | MissingFollowFields        // "Missing 'user_id' or 'username' in the request body"
    | MissingFavoriteFields      // "Missing required fields in the request body"
    | UserNotFound               // "User not found"
    | UserToFollowNotFound       // "User to follow not found"
    | FestivalNotFound           // "Festival not found"
    | NoFollowingData            // "User not found or has no following data"
    | NotInFollowingList(id: string)  // "User {id} not found in following list"
    | InvalidDocumentId          // uncaught error from a non-string document id
    | IntegerOutOfRange          // uncaught error from encoding an integer beyond 64 bits

  /** The HTTP status each error is answered with. */
  function Status(e: Error): (code: int)
    ensures code == 400 <==> (e.MissingUsername? || e.MissingUserParameter? || e.MissingRequestBody?
                              || e.MissingFollowFields? || e.MissingFavoriteFields?)
    ensures code == 500 <==> e.InvalidDocumentId? || e.IntegerOutOfRange?
    ensures code in {400, 404, 500}
  {
    match e
    case MissingUsername => 400
    case MissingUserParameter => 400
    case MissingRequestBody => 400
    case MissingFollowFields => 400
    case MissingFavoriteFields => 400
    case InvalidDocumentId => 500
    case IntegerOutOfRange => 500
    case _ => 404
  }
}
