/** The memory of the search: (linearized set, state) pairs in buckets by the hash of the set. */
module Cache {
  import opened Bitset
  import opened Search

  datatype Hashed = Hashed(hash: bv64)

  datatype CacheEntry<S> = CacheEntry(linearized: array<bv64>, state: S)

  ghost function ConfigOf<S>(e: CacheEntry<S>): Config<S>
    reads e.linearized
  {
    Config(Members(e.linearized[..]), e.state)
  }

  /** A cached entry: one of the arrays set aside for the cache, in the bucket of its hash, for a known pair. */
  ghost predicate Sound<S>(e: CacheEntry<S>, hash: Hashed, known: set<Config<S>>, len: nat, owned: set<array<bv64>>)
    reads owned
  {
    e.linearized in owned && e.linearized.Length == len && HashOf(e.linearized[..]) == hash.hash && ConfigOf(e) in known
  }

  ghost predicate Stored<S>(cache: map<Hashed, seq<CacheEntry<S>>>, c: Config<S>, owned: set<array<bv64>>)
    reads owned
  {
    exists hash, i :: hash in cache && 0 <= i < |cache[hash]| && cache[hash][i].linearized in owned
        && ConfigOf(cache[hash][i]) == c
  }

  /** The cache holds exactly the pairs in `known`, each in its bucket. */
  ghost predicate Holds<S>(
    cache: map<Hashed, seq<CacheEntry<S>>>, known: set<Config<S>>, len: nat, owned: set<array<bv64>>)
    reads owned
  {
    && (forall hash, i :: hash in cache && 0 <= i < |cache[hash]| ==> Sound(cache[hash][i], hash, known, len, owned))
    && (forall c :: c in known ==> Stored(cache, c, owned))
  }

  function Bucket<S>(cache: map<Hashed, seq<CacheEntry<S>>>, hash: Hashed): seq<CacheEntry<S>> {
    if hash in cache then cache[hash] else []
  }

  /** Equal sets have equal words, so a known pair can only be in the bucket looked at. */
  lemma InBucket<S>(
    cache: map<Hashed, seq<CacheEntry<S>>>, e: CacheEntry<S>, known: set<Config<S>>, len: nat, owned: set<array<bv64>>)
    returns (i: nat)
    requires Holds(cache, known, len, owned) && e.linearized.Length == len && ConfigOf(e) in known
    ensures var bucket := Bucket(cache, Hashed(HashOf(e.linearized[..])));
            i < |bucket| && ConfigOf(bucket[i]) == ConfigOf(e)
  {
    hide Members, HashOf;
    assert Stored(cache, ConfigOf(e), owned);
    var hash, k :| hash in cache && 0 <= k < |cache[hash]| && cache[hash][k].linearized in owned
        && ConfigOf(cache[hash][k]) == ConfigOf(e);
    assert Sound(cache[hash][k], hash, known, len, owned);
    MembersDecide(cache[hash][k].linearized[..], e.linearized[..]);
    i := k;
  }

  /** Looking in one bucket finds the pair exactly if it was ever inserted. */
  method CacheContains<S(==)>(
    cache: map<Hashed, seq<CacheEntry<S>>>, e: CacheEntry<S>, ghost known: set<Config<S>>, ghost len: nat,
    ghost owned: set<array<bv64>>)
    returns (found: bool)
    requires Holds(cache, known, len, owned) && e.linearized.Length == len
    ensures found <==> ConfigOf(e) in known
  {
    hide Members, HashOf;
    var word := Hash(e.linearized);
    var hash := Hashed(word);
    var bucket := Bucket(cache, hash);
    for i := 0 to |bucket|
      invariant forall j :: 0 <= j < i ==> ConfigOf(bucket[j]) != ConfigOf(e)
    {
      assert Sound(bucket[i], hash, known, len, owned);
      var same := Equals(e.linearized, bucket[i].linearized);
      if same && e.state == bucket[i].state {
        return true;
      }
    }
    if ConfigOf(e) in known {
      var i := InBucket(cache, e, known, len, owned);
      assert false;
    }
    found := false;
  }

  function Insert<S>(
    cache: map<Hashed, seq<CacheEntry<S>>>, hash: Hashed, e: CacheEntry<S>): map<Hashed, seq<CacheEntry<S>>> {
    cache[hash := Bucket(cache, hash) + [e]]
  }

  lemma InsertHolds<S>(
    cache: map<Hashed, seq<CacheEntry<S>>>, e: CacheEntry<S>, hash: Hashed, known: set<Config<S>>, len: nat,
    owned: set<array<bv64>>)
    requires Holds(cache, known, len, owned) && e.linearized.Length == len && hash == Hashed(HashOf(e.linearized[..]))
    ensures Holds(Insert(cache, hash, e), known + {ConfigOf(e)}, len, owned + {e.linearized})
  {
    hide Members, HashOf;
    var cache', known', owned' := Insert(cache, hash, e), known + {ConfigOf(e)}, owned + {e.linearized};
    assert cache'[hash] == Bucket(cache, hash) + [e];
    assert forall b :: b in cache && b != hash ==> b in cache' && cache'[b] == cache[b];
    forall b, i | b in cache' && 0 <= i < |cache'[b]| ensures Sound(cache'[b][i], b, known', len, owned') {
      if cache'[b][i] != e {
        assert b in cache && cache'[b][i] == cache[b][i];
        assert Sound(cache[b][i], b, known, len, owned);
      } else if b in cache && i < |cache[b]| {
        assert Sound(cache[b][i], b, known, len, owned);
      }
    }
    forall c | c in known' ensures Stored(cache', c, owned') {
      if c in known {
        assert Stored(cache, c, owned);
        var b, i :| b in cache && 0 <= i < |cache[b]| && cache[b][i].linearized in owned && ConfigOf(cache[b][i]) == c;
        assert cache'[b][i] == cache[b][i];
      } else {
        assert cache'[hash][|Bucket(cache, hash)|] == e;
      }
    }
  }
}
