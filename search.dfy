/** The username search of `find_users`: a range query on the `username`
    field, from the query string up to the query string followed by U+F8FF. */
module Search {
  import opened Documents

  /** The character appended to the query to close the range (main.py:66). */
  const RangeEnd: char := '\U{F8FF}'

  /** The store's order on strings: lexicographic by code point, which is
      also the order of their UTF-8 bytes. */
  predicate StrLess(a: string, b: string) {
    if a == [] then b != []
    else if b == [] then false
    else if a[0] != b[0] then a[0] < b[0]
    else StrLess(a[1..], b[1..])
  }

  /** The username is at least q and below q followed by U+F8FF; a
      username that is not a string never lies in a range of strings. */
  predicate InPrefixRange(username: Value, q: string) {
    username.Str? && !StrLess(username.s, q) && StrLess(username.s, q + [RangeEnd])
  }

  /** The range holds exactly the strings that start with q and either end
      there or continue with a character below U+F8FF. */
  lemma {:induction false} PrefixRangeMeansPrefix(s: string, q: string)
    ensures InPrefixRange(Str(s), q) <==> q <= s && (|s| == |q| || s[|q|] < RangeEnd)
  {
    if q == [] {
      assert [] + [RangeEnd] == [RangeEnd];
      if s != [] {
        assert StrLess(s, [RangeEnd]) <==> s[0] < RangeEnd by {
          assert [RangeEnd][0] == RangeEnd && [RangeEnd][1..] == [];
        }
      }
    } else if s == [] {
    } else if s[0] != q[0] {
      assert (q + [RangeEnd])[0] == q[0];
    } else {
      assert (q + [RangeEnd])[1..] == q[1..] + [RangeEnd];
      PrefixRangeMeansPrefix(s[1..], q[1..]);
      assert q <= s <==> q[1..] <= s[1..] by {
        assert q == [q[0]] + q[1..];
        assert s == [s[0]] + s[1..];
      }
    }
  }

  /** A username that continues the query with U+F8FF itself, or with any
      later character, is not found although it starts with the query. */
  lemma RangeMissesHighContinuation(q: string, c: char)
    requires RangeEnd <= c
    ensures !InPrefixRange(Str(q + [c]), q)
  {
    PrefixRangeMeansPrefix(q + [c], q);
    assert (q + [c])[|q|] == c;
  }

  /** The query "ban" finds "band_fan" and "banker" but not "zzz". */
  lemma SearchExample()
    ensures InPrefixRange(Str("band_fan"), "ban")
    ensures InPrefixRange(Str("banker"), "ban")
    ensures !InPrefixRange(Str("zzz"), "ban")
  {
    PrefixRangeMeansPrefix("band_fan", "ban");
    PrefixRangeMeansPrefix("banker", "ban");
    PrefixRangeMeansPrefix("zzz", "ban");
  }
}
