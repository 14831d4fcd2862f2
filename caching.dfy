/**
 * Cache keys and the result cache. A key is `"search:" + H(q) + ":" + str(n)`
 * where `q` is the query lower-cased and stripped (ASCII only) and `H` is the
 * hex digest of a cryptographic hash, kept abstract: the model only relies on
 * its output being 64 lower-case hexadecimal characters. The store is a map
 * from keys to entries; reads and writes go through a class holding it.
 */
module Caching {
  import opened Wrappers
  import opened Decimal

  // ---------------------------------------------------------------------------
  // Query normalisation: `query.lower().strip()` on ASCII text
  // ---------------------------------------------------------------------------

  /** The ASCII characters for which Python's `str.isspace` holds. */
  predicate IsSpace(c: char) {
    c == ' ' || 9 <= c as int <= 13 || 28 <= c as int <= 31
  }

  predicate AllSpace(s: string) {
    forall k :: 0 <= k < |s| ==> IsSpace(s[k])
  }

  function LowerChar(c: char): char {
    if 'A' <= c <= 'Z' then (c as int + 32) as char else c
  }

  /** `s.lower()` on ASCII letters. */
  function Lower(s: string): string {
    seq(|s|, k requires 0 <= k < |s| => LowerChar(s[k]))
  }

  /** `s.lstrip()`: the suffix of `s` left after its leading whitespace. */
  function StripLeft(s: string): (r: string)
    ensures |r| <= |s| && r == s[|s| - |r|..]
    ensures forall k :: 0 <= k < |s| - |r| ==> IsSpace(s[k])
    ensures |r| > 0 ==> !IsSpace(r[0])
  {
    if |s| > 0 && IsSpace(s[0]) then StripLeft(s[1..]) else s
  }

  /** `s.rstrip()`: the prefix of `s` left before its trailing whitespace. */
  function StripRight(s: string): (r: string)
    ensures |r| <= |s| && r == s[..|r|]
    ensures forall k :: |r| <= k < |s| ==> IsSpace(s[k])
    ensures |r| > 0 ==> !IsSpace(r[|r| - 1])
  {
    if |s| > 0 && IsSpace(s[|s| - 1]) then StripRight(s[..|s| - 1]) else s
  }

  function Strip(s: string): string {
    StripRight(StripLeft(s))
  }

  /** `query.lower().strip()`. */
  function NormalizeQuery(query: string): string {
    Strip(Lower(query))
  }

  // ---------------------------------------------------------------------------
  // Keys
  // ---------------------------------------------------------------------------

  predicate IsHexDigest(d: string) {
    |d| == 64 && forall k :: 0 <= k < |d| ==> '0' <= d[k] <= '9' || 'a' <= d[k] <= 'f'
  }

  /** A stand-in for `hashlib.sha256(text.encode()).hexdigest()`. */
  type Hasher = h: string -> string | forall s :: IsHexDigest(h(s))
    witness (s: string) => seq(64, k => '0')

  const KeyPrefix: string := "search"

  /** `get_cache_key(query, max_results)`. */
  function CacheKey(hash: Hasher, query: string, maxResults: int): string {
    KeyPrefix + ":" + hash(NormalizeQuery(query)) + ":" + IntToString(maxResults)
  }

  /** `s.split(":")`. */
  function Split(s: string): (parts: seq<string>)
    ensures |parts| >= 1
    decreases |s|
  {
    if |s| == 0 then [""]
    else
      var rest := Split(s[1..]);
      if s[0] == ':' then [""] + rest else [[s[0]] + rest[0]] + rest[1..]
  }

  lemma {:induction false} SplitNoColon(a: string)
    requires forall k :: 0 <= k < |a| ==> a[k] != ':'
    ensures Split(a) == [a]
    decreases |a|
  {
    if |a| > 0 {
      SplitNoColon(a[1..]);
      assert [a[0]] + a[1..] == a;
    }
  }

  lemma {:induction false} SplitAtColon(a: string, b: string)
    requires forall k :: 0 <= k < |a| ==> a[k] != ':'
    ensures Split(a + ":" + b) == [a] + Split(b)
    decreases |a|
  {
    if |a| == 0 {
      assert a + ":" + b == [':'] + b;
      assert ([':'] + b)[1..] == b;
    } else {
      var s := a + ":" + b;
      assert s[0] == a[0] && s[1..] == a[1..] + ":" + b;
      SplitAtColon(a[1..], b);
      assert [a[0]] + a[1..] == a;
    }
  }

  predicate NoColon(s: string) {
    forall k :: 0 <= k < |s| ==> s[k] != ':'
  }

  /** A key assembled from colon-free parts splits back into them. */
  lemma SplitKey(d: string, n: string)
    requires NoColon(d) && NoColon(n)
    ensures Split(KeyPrefix + ":" + d + ":" + n) == [KeyPrefix, d, n]
  {
    SplitNoColon(n);
    SplitAtColon(d, n);
    var tail := d + ":" + n;
    assert KeyPrefix + ":" + d + ":" + n == KeyPrefix + ":" + tail;
    SplitAtColon(KeyPrefix, tail);
  }

  /**
   * Every key has exactly three colon-separated parts: the prefix `search`,
   * the digest of the normalised query and the decimal bound.
   */
  lemma KeyParts(hash: Hasher, query: string, maxResults: int)
    ensures Split(CacheKey(hash, query, maxResults))
              == [KeyPrefix, hash(NormalizeQuery(query)), IntToString(maxResults)]
  {
    var d := hash(NormalizeQuery(query));
    var n := IntToString(maxResults);
    assert IsHexDigest(d);
    assert NoColon(n);
    SplitKey(d, n);
  }

  /** Every key starts with `search:`. */
  lemma KeyStartsWithPrefix(hash: Hasher, query: string, maxResults: int)
    ensures |CacheKey(hash, query, maxResults)| > 7 && CacheKey(hash, query, maxResults)[..7] == "search:"
  {
    var d := hash(NormalizeQuery(query));
    var tail := d + ":" + IntToString(maxResults);
    assert CacheKey(hash, query, maxResults) == "search:" + tail;
  }

  /**
   * Two keys are equal exactly when their bounds are equal and the digests of
   * their normalised queries are equal. So queries equal after lower-casing
   * and stripping share a key for the same bound, and different bounds never
   * share a key.
   */
  lemma KeyEquality(hash: Hasher, q1: string, n1: int, q2: string, n2: int)
    ensures CacheKey(hash, q1, n1) == CacheKey(hash, q2, n2) <==>
              n1 == n2 && hash(NormalizeQuery(q1)) == hash(NormalizeQuery(q2))
  {
    KeyParts(hash, q1, n1);
    KeyParts(hash, q2, n2);
    IntToStringInjective(n1, n2);
  }

  // ---------------------------------------------------------------------------
  // Normalisation ignores case and surrounding whitespace
  // ---------------------------------------------------------------------------

  lemma {:induction false} StripLeftSpaces(w: string, y: string)
    requires AllSpace(w)
    ensures StripLeft(w + y) == StripLeft(y)
    decreases |w|
  {
    if |w| == 0 {
      assert w + y == y;
    } else {
      assert (w + y)[1..] == w[1..] + y;
      StripLeftSpaces(w[1..], y);
    }
  }

  lemma {:induction false} StripRightSpaces(y: string, w: string)
    requires AllSpace(w)
    ensures StripRight(y + w) == StripRight(y)
    decreases |w|
  {
    if |w| == 0 {
      assert y + w == y;
    } else {
      var s := y + w;
      assert s[..|s| - 1] == y + w[..|w| - 1];
      StripRightSpaces(y, w[..|w| - 1]);
    }
  }

  lemma {:induction false} StripLeftKeepsTail(x: string, w: string)
    requires |StripLeft(x)| > 0
    ensures StripLeft(x + w) == StripLeft(x) + w
    decreases |x|
  {
    if IsSpace(x[0]) {
      assert (x + w)[1..] == x[1..] + w;
      StripLeftKeepsTail(x[1..], w);
    }
  }

  /** Stripping ignores whitespace added on either side. */
  lemma StripPadded(w1: string, x: string, w2: string)
    requires AllSpace(w1) && AllSpace(w2)
    ensures Strip(w1 + x + w2) == Strip(x)
  {
    assert w1 + x + w2 == w1 + (x + w2);
    StripLeftSpaces(w1, x + w2);
    if |StripLeft(x)| > 0 {
      StripLeftKeepsTail(x, w2);
      StripRightSpaces(StripLeft(x), w2);
    } else {
      assert AllSpace(x + w2);
      StripLeftSpaces(x + w2, "");
      assert x + w2 + "" == x + w2;
    }
  }

  /**
   * Queries that differ only in letter case or in surrounding whitespace have
   * the same key for the same bound.
   */
  lemma {:induction false} KeyIgnoresCaseAndPadding(hash: Hasher, query: string, w1: string, w2: string, maxResults: int)
    requires AllSpace(w1) && AllSpace(w2)
    ensures CacheKey(hash, w1 + query + w2, maxResults) == CacheKey(hash, query, maxResults)
    ensures CacheKey(hash, Lower(query), maxResults) == CacheKey(hash, query, maxResults)
  {
    LowerPadded(w1, query, w2);
    StripPadded(w1, Lower(query), w2);
    assert NormalizeQuery(w1 + query + w2) == NormalizeQuery(query);
    LowerIdempotent(query);
    assert NormalizeQuery(Lower(query)) == NormalizeQuery(query);
  }

  lemma {:induction false} LowerIdempotent(x: string)
    ensures Lower(Lower(x)) == Lower(x)
  {
  }

  lemma {:induction false} LowerPadded(w1: string, x: string, w2: string)
    requires AllSpace(w1) && AllSpace(w2)
    ensures Lower(w1 + x + w2) == w1 + Lower(x) + w2
  {
    var s := w1 + x + w2;
    forall k | 0 <= k < |s| ensures Lower(s)[k] == (w1 + Lower(x) + w2)[k] {
      if k < |w1| {
        assert s[k] == w1[k];
      } else if k < |w1| + |x| {
        assert s[k] == x[k - |w1|];
      } else {
        assert s[k] == w2[k - |w1| - |x|];
      }
    }
  }

  // ---------------------------------------------------------------------------
  // The store
  // ---------------------------------------------------------------------------

  /** The time-to-live, in seconds, of every entry `cache_result` writes by default. */
  const DefaultTtl: nat := 600

  /** A stored value with the time-to-live it was written with. */
  datatype Entry<T> = Entry(value: T, ttl: nat)

  /**
   * The key-value store behind the cache. Values are stored as themselves:
   * the JSON encoding and decoding around them is taken to be the identity.
   */
  class ResultCache<T> {
    const hash: Hasher
    var entries: map<string, Entry<T>>

    constructor (hash: Hasher)
      ensures this.hash == hash && entries == map[]
    {
      this.hash := hash;
      entries := map[];
    }

    /** What a read of `key` yields: the stored value, or nothing when the key is absent. */
    function Lookup(key: string): Option<T>
      reads this
    {
      if key in entries then Some(entries[key].value) else None
    }

    /** `fetch_products_and_filters_with_cache(query, max_results)`. */
    method FetchWithCache(query: string, maxResults: int := 10) returns (r: Option<T>)
      ensures r.Some? <==> CacheKey(hash, query, maxResults) in entries
      ensures r.Some? ==> r.value == entries[CacheKey(hash, query, maxResults)].value
    {
      var key := CacheKey(hash, query, maxResults);
      if key in entries {
        r := Some(entries[key].value);
      } else {
        r := None;
      }
    }

    /** `cache_result(cache_key, data, ttl)`: overwrites `key` and nothing else. */
    method CacheResult(key: string, data: T, ttl: nat := DefaultTtl)
      modifies this
      ensures entries == old(entries)[key := Entry(data, ttl)]
      ensures Lookup(key) == Some(data)
      ensures forall k :: k != key ==> Lookup(k) == old(Lookup(k))
    {
      entries := entries[key := Entry(data, ttl)];
    }
  }
}
