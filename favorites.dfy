/** The favourite toggle on a user's `favorite_bands` list: a list used as a
    set, deduplicated on write. Entries are compared with Python's `==` on
    dicts, field by field, so a `band_id` of `True` matches one of `1`. */
module Favorites {
  import opened Documents

  /** Position of the first occurrence of x in s. */
  function IndexOf<T(==)>(s: seq<T>, x: T): (i: nat)
    requires x in s
    ensures i < |s| && s[i] == x && x !in s[..i]
  {
    if s[0] == x then 0 else 1 + IndexOf(s[1..], x)
  }

  /** What Python's `==` compares of an entry: both fields, with booleans
      read as the integers 0 and 1. */
  function EntryKey(k: FavoriteKey): (c: FavoriteKey)
    ensures PyEq(c.presentationDay, k.presentationDay) && PyEq(c.bandId, k.bandId)
    ensures !c.presentationDay.Bool? && !c.bandId.Bool?
  {
    FavoriteKey(Numeric(k.presentationDay), Numeric(k.bandId))
  }

  /** The compared form of every entry, in list order. */
  function Keys(bands: seq<FavoriteKey>): (ks: seq<FavoriteKey>)
    ensures |ks| == |bands| && forall i :: 0 <= i < |bands| ==> ks[i] == EntryKey(bands[i])
  {
    seq(|bands|, i requires 0 <= i < |bands| => EntryKey(bands[i]))
  }

  /** Python's `entry in bands` (main.py:139, 142). */
  predicate Listed(bands: seq<FavoriteKey>, entry: FavoriteKey) {
    EntryKey(entry) in Keys(bands)
  }

  /** No two entries of the list are equal for Python. */
  predicate Distinct(bands: seq<FavoriteKey>) {
    NoDup(Keys(bands))
  }

  /** `entry in bands` holds exactly when some entry matches both fields
      under Python's `==`. */
  lemma ListedMeansMatch(bands: seq<FavoriteKey>, entry: FavoriteKey)
    ensures Listed(bands, entry) <==>
              exists i :: 0 <= i < |bands| && PyEq(bands[i].presentationDay, entry.presentationDay)
                                           && PyEq(bands[i].bandId, entry.bandId)
  {
    if Listed(bands, entry) {
      var i :| 0 <= i < |bands| && Keys(bands)[i] == EntryKey(entry);
      assert PyEq(bands[i].presentationDay, entry.presentationDay);
    }
  }

  /** A lookup by string day and string band id, as the schedule makes, is
      plain structural membership: a string equals only the same string. */
  lemma {:induction false} StringEntryListed(bands: seq<FavoriteKey>, day: string, bandId: string)
    ensures Listed(bands, FavoriteKey(Str(day), Str(bandId))) <==> FavoriteKey(Str(day), Str(bandId)) in bands
  {
    var entry := FavoriteKey(Str(day), Str(bandId));
    if Listed(bands, entry) {
      var i :| 0 <= i < |bands| && Keys(bands)[i] == EntryKey(entry);
      assert Numeric(bands[i].bandId) == Str(bandId);
      assert Numeric(bands[i].presentationDay) == Str(day);
      assert bands[i] == entry;
    }
    if entry in bands {
      var i :| 0 <= i < |bands| && bands[i] == entry;
      assert Keys(bands)[i] == EntryKey(entry);
    }
  }

  /** Python's `list.remove(x)` after a membership test: the first entry
      equal to x goes. */
  function RemoveFirst(s: seq<FavoriteKey>, x: FavoriteKey): (r: seq<FavoriteKey>)
    ensures !Listed(s, x) ==> r == s
    ensures Listed(s, x) ==> |r| == |s| - 1
  {
    if s == [] then []
    else
      assert Keys(s) == [EntryKey(s[0])] + Keys(s[1..]);
      if EntryKey(s[0]) == EntryKey(x) then s[1..]
      else [s[0]] + RemoveFirst(s[1..], x)
  }

  /** The compared forms of a slice are the slice of the compared forms. */
  lemma KeysSlice(s: seq<FavoriteKey>, a: nat, b: nat)
    requires a <= b <= |s|
    ensures Keys(s[a..b]) == Keys(s)[a..b]
  {
  }

  /** The compared forms of a concatenation are the concatenation of the
      compared forms. */
  lemma KeysAppend(s: seq<FavoriteKey>, t: seq<FavoriteKey>)
    ensures Keys(s + t) == Keys(s) + Keys(t)
  {
  }

  /** Slicing off the first entry of a list. */
  lemma DropFirst(s: seq<FavoriteKey>, k: nat)
    requires k + 1 < |s|
    ensures [s[0]] + (s[1..][..k] + s[1..][k + 1..]) == s[..k + 1] + s[k + 2..]
  {
    assert s[..k + 1] == [s[0]] + s[1..][..k];
    assert s[1..][k + 1..] == s[k + 2..];
  }

  /** The entry removed is the first one equal to x; every other entry keeps
      its place. */
  lemma {:induction false} RemoveFirstSplits(s: seq<FavoriteKey>, x: FavoriteKey)
    requires Listed(s, x)
    ensures var i := IndexOf(Keys(s), EntryKey(x));
            RemoveFirst(s, x) == s[..i] + s[i + 1..]
  {
    var ks := Keys(s);
    if ks[0] != EntryKey(x) {
      KeysSlice(s, 1, |s|);
      assert s[1..|s|] == s[1..];
      assert ks[1..|s|] == ks[1..];
      assert Listed(s[1..], x);
      var k := IndexOf(Keys(s[1..]), EntryKey(x));
      assert IndexOf(ks, EntryKey(x)) == k + 1;
      RemoveFirstSplits(s[1..], x);
      DropFirst(s, k);
    }
  }

  /** Cutting one position out of a sequence changes no other value's
      membership; on a duplicate-free sequence the cut value is gone and the
      rest stays duplicate-free. */
  lemma CutMembers<T>(s: seq<T>, i: nat)
    requires i < |s|
    ensures forall k :: k != s[i] ==> (k in s[..i] + s[i + 1..] <==> k in s)
    ensures NoDup(s) ==> NoDup(s[..i] + s[i + 1..]) && s[i] !in s[..i] + s[i + 1..]
  {
    var r := s[..i] + s[i + 1..];
    assert s == s[..i] + [s[i]] + s[i + 1..];
    if NoDup(s) {
      forall p, q | 0 <= p < q < |r| ensures r[p] != r[q] {
        var p' := if p < i then p else p + 1;
        var q' := if q < i then q else q + 1;
        assert r[p] == s[p'] && r[q] == s[q'];
      }
      forall j | 0 <= j < |r| ensures r[j] != s[i] {
        var j' := if j < i then j else j + 1;
        assert r[j] == s[j'];
      }
    }
  }

  /** What removing one entry does to Python membership and to
      duplicate-freedom. */
  lemma RemoveFirstMembers(s: seq<FavoriteKey>, x: FavoriteKey)
    requires Listed(s, x)
    ensures forall k :: EntryKey(k) != EntryKey(x) ==> (Listed(RemoveFirst(s, x), k) <==> Listed(s, k))
    ensures Distinct(s) ==> Distinct(RemoveFirst(s, x)) && !Listed(RemoveFirst(s, x), x)
  {
    var i := IndexOf(Keys(s), EntryKey(x));
    RemoveFirstSplits(s, x);
    KeysAppend(s[..i], s[i + 1..]);
    KeysSlice(s, 0, i);
    KeysSlice(s, i + 1, |s|);
    assert s[0..i] == s[..i] && s[i + 1..|s|] == s[i + 1..];
    assert Keys(s)[0..i] == Keys(s)[..i] && Keys(s)[i + 1..|s|] == Keys(s)[i + 1..];
    CutMembers(Keys(s), i);
  }

  /** The list `favorite_band` writes back for `key` (main.py:136-145). */
  function Toggle(bands: seq<FavoriteKey>, key: FavoriteKey, favorite: bool): (r: seq<FavoriteKey>)
    ensures forall k :: EntryKey(k) != EntryKey(key) ==> (Listed(r, k) <==> Listed(bands, k))
    ensures favorite ==> Listed(r, key)
    ensures Distinct(bands) ==> Distinct(r) && (Listed(r, key) <==> favorite)
    ensures forall x :: x in r ==> x in bands || x == key
  {
    if favorite then
      if !Listed(bands, key) then
        assert Keys(bands + [key]) == Keys(bands) + [EntryKey(key)];
        bands + [key]
      else bands
    else
      if Listed(bands, key) then
        RemoveFirstMembers(bands, key);
        RemoveFirstSplits(bands, key);
        RemoveFirst(bands, key)
      else bands
  }

  /** Toggling on keeps the list as a prefix and appends the entry exactly
      when no equal entry is there, leaving any list that already holds one
      unchanged; toggling off removes the first equal entry in place; every
      other entry keeps its relative order. */
  lemma ToggleKeepsOrder(bands: seq<FavoriteKey>, key: FavoriteKey, favorite: bool)
    ensures favorite ==> var r := Toggle(bands, key, favorite);
              && r[..|bands|] == bands
              && (|r| == |bands| + 1 <==> !Listed(bands, key))
              && (|r| > |bands| ==> r[|bands|] == key)
    ensures favorite && Listed(bands, key) ==> Toggle(bands, key, favorite) == bands
    ensures !favorite && Listed(bands, key) ==>
              var i := IndexOf(Keys(bands), EntryKey(key));
              Toggle(bands, key, favorite) == bands[..i] + bands[i + 1..]
    ensures !favorite && !Listed(bands, key) ==> Toggle(bands, key, favorite) == bands
  {
    if !favorite && Listed(bands, key) {
      RemoveFirstSplits(bands, key);
    }
  }

  /** Repeating the same toggle changes nothing (main.py:138-145). */
  lemma ToggleIdempotent(bands: seq<FavoriteKey>, key: FavoriteKey, favorite: bool)
    requires Distinct(bands)
    ensures Toggle(Toggle(bands, key, favorite), key, favorite) == Toggle(bands, key, favorite)
  {
    var once := Toggle(bands, key, favorite);
    assert Listed(once, key) <==> favorite;
  }

  /** A duplicate left in a list by another writer survives one "remove":
      Python's `list.remove` drops only the first copy. */
  lemma RemoveKeepsLaterCopy(key: FavoriteKey)
    ensures Toggle([key, key], key, false) == [key]
  {
    assert Keys([key, key]) == [EntryKey(key), EntryKey(key)];
    assert Keys([key, key])[0] == EntryKey(key);
  }

  /** An entry stored with `band_id` 1 is the same entry as one sent with
      `band_id` true: toggling the latter off removes the former, and
      toggling it on adds nothing. */
  lemma TrueMatchesOne()
    ensures Toggle([FavoriteKey(Str("Fri"), Int(1))], FavoriteKey(Str("Fri"), Bool(true)), false) == []
    ensures Toggle([FavoriteKey(Str("Fri"), Int(1))], FavoriteKey(Str("Fri"), Bool(true)), true)
              == [FavoriteKey(Str("Fri"), Int(1))]
  {
    var stored := FavoriteKey(Str("Fri"), Int(1));
    var sent := FavoriteKey(Str("Fri"), Bool(true));
    assert Keys([stored]) == [EntryKey(sent)];
  }
}
