/**
 * The module-wide `searchCache`: query key to `{at, items}`, with a lazy
 * 15-minute time-to-live and writes only for non-empty results.
 */
module SearchCache {
  import opened Wrappers
  import opened JsText
  import opened BggXml

  /** `CACHE_TTL_MS`. */
  const CacheTtlMs: nat := 15 * 60 * 1000

  datatype Entry = Entry(at: int, items: seq<Game>)

  type Cache = map<string, Entry>

  /**
   * `query.trim().toLowerCase()`, written with the fold first; the two orders
   * agree (`KeyMatchesSourceOrder`) because folding never makes or removes white space.
   */
  function Key(query: string): string {
    Trim(ToLower(query))
  }

  /** `` `fast:${query.trim().toLowerCase()}` ``. */
  function FastKey(query: string): (k: string)
    ensures |k| == |Key(query)| + 5 && k[..5] == "fast:" && k[5..] == Key(query)
  {
    "fast:" + Key(query)
  }

  /** `cached && Date.now() - cached.at < CACHE_TTL_MS ? cached.items : miss`. */
  function Lookup(c: Cache, key: string, now: int): (r: Option<seq<Game>>)
    ensures r.Some? <==> key in c && now - c[key].at < CacheTtlMs
    ensures r.Some? ==> r.value == c[key].items
  {
    if key in c && now - c[key].at < CacheTtlMs then Some(c[key].items) else None
  }

  /** `if (results.length > 0) searchCache.set(key, {at: now, items: results})`. */
  function Store(c: Cache, key: string, now: int, items: seq<Game>): (c': Cache)
    ensures items == [] ==> c' == c
    ensures items != [] ==> key in c' && c'[key] == Entry(now, items)
    ensures forall k :: k != key ==> (k in c' <==> k in c) && (k in c ==> c'[k] == c[k])
    ensures c'.Keys == if items == [] then c.Keys else c.Keys + {key}
  {
    if |items| > 0 then c[key := Entry(now, items)] else c
  }

  /** A stored result is served unchanged until 15 minutes have passed, and treated as absent from then on. */
  lemma StoreThenLookup(c: Cache, key: string, t: int, items: seq<Game>, t': int)
    requires items != []
    ensures t' - t < CacheTtlMs ==> Lookup(Store(c, key, t, items), key, t') == Some(items)
    ensures t' - t >= CacheTtlMs ==> Lookup(Store(c, key, t, items), key, t') == None
  {
  }

  /** An empty result leaves the cache as it was: a later lookup misses if it missed before. */
  lemma StoreEmptyChangesNothing(c: Cache, key: string, t: int, t': int)
    ensures Lookup(Store(c, key, t, []), key, t') == Lookup(c, key, t')
  {
  }

  /** A write replaces the earlier entry for its key outright, and touches no other key. */
  lemma StoreReplaces(c: Cache, key: string, t: int, items: seq<Game>, other: string, t': int)
    requires items != [] && other != key
    ensures Store(c, key, t, items)[key].items == items
    ensures Lookup(Store(c, key, t, items), other, t') == Lookup(c, other, t')
  {
  }

  /** Queries that differ only in the case of ASCII letters share a key. */
  lemma KeyIgnoresCase(q: string, q': string)
    requires |q| == |q'| && forall i :: 0 <= i < |q| ==> LowerChar(q[i]) == LowerChar(q'[i])
    ensures Key(q) == Key(q')
  {
    assert ToLower(q) == ToLower(q');
  }

  /** Queries that differ only in surrounding white space share a key. */
  lemma KeyIgnoresSurroundingSpace(a: string, q: string, b: string)
    requires AllSpace(a) && AllSpace(b)
    ensures Key(a + q + b) == Key(q)
  {
    ToLowerAppend(a + q, b);
    ToLowerAppend(a, q);
    ToLowerKeepsSpace(a);
    ToLowerKeepsSpace(b);
    TrimIgnoresPadding(a, ToLower(q), b);
  }

  /** Folding first and trimming first give the same key. */
  lemma KeyMatchesSourceOrder(q: string)
    ensures Key(q) == ToLower(Trim(q))
  {
    TrimStartLower(q);
    TrimEndLower(TrimStart(q));
  }

  lemma {:induction false} TrimStartLower(s: string)
    ensures TrimStart(ToLower(s)) == ToLower(TrimStart(s))
    decreases |s|
  {
    var l := ToLower(s);
    if |s| > 0 {
      assert l[0] == LowerChar(s[0]);
      if IsSpace(s[0]) {
        assert l[1..] == ToLower(s[1..]);
        TrimStartLower(s[1..]);
      }
    }
  }

  lemma {:induction false} TrimEndLower(s: string)
    ensures TrimEnd(ToLower(s)) == ToLower(TrimEnd(s))
    decreases |s|
  {
    var l := ToLower(s);
    if |s| > 0 {
      assert l[|s| - 1] == LowerChar(s[|s| - 1]);
      if IsSpace(s[|s| - 1]) {
        assert l[..|s| - 1] == ToLower(s[..|s| - 1]);
        TrimEndLower(s[..|s| - 1]);
      }
    }
  }

  /** For one query the detailed and the fast search never share an entry. */
  lemma KeysIsolated(q: string)
    ensures Key(q) != FastKey(q)
  {
    assert |FastKey(q)| == |Key(q)| + 5;
  }

  /** A detailed query made of `fast:` and a normalised query lands on that query's fast key. */
  lemma DetailedKeyMeetsFastKey(q: string)
    ensures Key("fast:" + Key(q)) == FastKey(q)
  {
    var f := "fast:";
    var k := Key(q);
    FastPrefixPlain();
    KeyIsFolded(q);
    FoldedConcat(f, k);
    UntrimmedConcat(f, k);
  }

  /** The prefix `fast:` is already folded and starts and ends on a non-space. */
  lemma FastPrefixPlain()
    ensures ToLower("fast:") == "fast:"
    ensures !IsSpace("fast:"[0]) && !IsSpace("fast:"[4])
  {
  }

  /** Folding a concatenation of two folded strings changes nothing. */
  lemma FoldedConcat(f: string, k: string)
    requires ToLower(f) == f && ToLower(k) == k
    ensures ToLower(f + k) == f + k
  {
    ToLowerAppend(f, k);
  }

  /** A key is its own lower-case form. */
  lemma KeyIsFolded(q: string)
    ensures ToLower(Key(q)) == Key(q)
  {
    KeyIsLower(q);
    var k := Key(q);
    assert forall i :: 0 <= i < |k| ==> ToLower(k)[i] == k[i];
  }

  /** Nothing for `trim` to remove when the first part starts and ends on a non-space and the second part ends on one. */
  lemma UntrimmedConcat(f: string, q: string)
    requires |f| > 0 && !IsSpace(f[0]) && !IsSpace(f[|f| - 1])
    requires q == [] || !IsSpace(q[|q| - 1])
    ensures Trim(f + q) == f + q
  {
    var s := f + q;
    assert s[0] == f[0];
    assert s[|s| - 1] == if q == [] then f[|f| - 1] else q[|q| - 1];
    TrimUnpadded(s);
  }

  /** Every character is its own lower-case form. */
  predicate Folded(s: string) {
    forall i :: 0 <= i < |s| ==> LowerChar(s[i]) == s[i]
  }

  /** Every character of a key is already folded. */
  lemma KeyIsLower(q: string)
    ensures Folded(Key(q))
  {
    ToLowerIsFolded(q);
    TrimKeepsFolded(ToLower(q));
  }

  lemma ToLowerIsFolded(q: string)
    ensures Folded(ToLower(q))
  {
    var l := ToLower(q);
    forall j | 0 <= j < |l| ensures LowerChar(l[j]) == l[j] {
      assert l[j] == LowerChar(q[j]);
    }
  }

  /** Trimming a folded string leaves it folded. */
  lemma TrimKeepsFolded(l: string)
    requires Folded(l)
    ensures Folded(Trim(l))
  {
    var t := TrimStart(l);
    SliceStaysFolded(l, |l| - |t|, |l|);
    SliceStaysFolded(t, 0, |TrimEnd(t)|);
  }

  /** A slice of a folded string is folded. */
  lemma SliceStaysFolded(l: string, i: nat, j: nat)
    requires i <= j <= |l| && Folded(l)
    ensures Folded(l[i..j])
  {
    forall n | 0 <= n < j - i ensures LowerChar(l[i..j][n]) == l[i..j][n] {
      assert l[i..j][n] == l[i + n];
    }
  }
}
