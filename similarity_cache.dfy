/** The memo table in front of `calculateSimilarity`: one process-wide
    table keyed by the string `similarity_${text1}_${text2}`, and the same
    table keyed by the pair of texts. */
module SimilarityCache {
  import opened Nlp

  /** The cache key the processor builds for a pair of texts. */
  function CacheKey(a: string, b: string): (k: string)
    ensures |k| == |a| + |b| + 12 && k[..11] == "similarity_"
    ensures k[11..11 + |a|] == a && k[11 + |a|] == '_' && k[12 + |a|..] == b
  {
    "similarity_" + a + "_" + b
  }

  function Underscores(s: string): nat {
    if s == [] then 0 else (if s[0] == '_' then 1 else 0) + Underscores(s[1..])
  }

  lemma {:induction false} UnderscoresAppend(s: string, t: string)
    ensures Underscores(s + t) == Underscores(s) + Underscores(t)
  {
    if s == [] {
      assert s + t == t;
    } else {
      assert (s + t)[0] == s[0] && (s + t)[1..] == s[1..] + t;
      UnderscoresAppend(s[1..], t);
    }
  }

  lemma {:induction false} NoUnderscores(s: string)
    ensures Underscores(s) == 0 <==> '_' !in s
  {
    if s != [] {
      NoUnderscores(s[1..]);
      assert s == [s[0]] + s[1..];
    }
  }

  lemma KeyUnderscores(a: string, b: string)
    ensures Underscores(CacheKey(a, b)) == 2 + Underscores(a) + Underscores(b)
  {
    UnderscoresAppend("similarity_" + a + "_", b);
    UnderscoresAppend("similarity_" + a, "_");
    UnderscoresAppend("similarity_", a);
    assert Underscores("similarity_") == 1;
    assert Underscores("_") == 1;
  }

  /** On texts without an underscore the key determines the pair: the only
      underscore after the prefix is the separator. */
  lemma KeyInjectiveWithoutUnderscores(a: string, b: string, c: string, d: string)
    requires '_' !in a && '_' !in b
    requires CacheKey(a, b) == CacheKey(c, d)
    ensures a == c && b == d
  {
    KeyUnderscores(a, b);
    KeyUnderscores(c, d);
    NoUnderscores(a);
    NoUnderscores(b);
    NoUnderscores(c);
    NoUnderscores(d);
    var x, y := a + "_" + b, c + "_" + d;
    assert CacheKey(a, b) == "similarity_" + x && CacheKey(c, d) == "similarity_" + y;
    assert x == CacheKey(a, b)[11..] && y == CacheKey(c, d)[11..];
    assert x == y;
    assert x[|a|] == '_' && forall k :: 0 <= k < |a| ==> x[k] == a[k] && a[k] != '_';
    assert y[|c|] == '_' && forall k :: 0 <= k < |c| ==> y[k] == c[k] && c[k] != '_';
    assert |a| == |c|;
    assert a == x[..|a|] && c == y[..|c|];
    assert b == x[|a| + 1..] && d == y[|c| + 1..];
  }

  /** Two different pairs of texts that share a key. */
  lemma KeyCollision()
    ensures CacheKey("x_y", "x_y") == CacheKey("x", "y_x_y")
  {
  }

  /** The table as written. Entries expire after a time-to-live; expiry only
      removes entries. */
  class StringKeyedCache {
    const pre: Preprocessor
    var entries: map<string, real>

    /** Every entry that a pair of underscore-free texts can reach holds the
        similarity of that pair. */
    ghost predicate Valid()
      reads this
    {
      forall a, b :: '_' !in a && '_' !in b && CacheKey(a, b) in entries ==>
        entries[CacheKey(a, b)] == Similarity(pre, a, b)
    }

    constructor (pre: Preprocessor)
      ensures this.pre == pre && entries == map[] && Valid()
    {
      this.pre := pre;
      entries := map[];
    }

    /** `calculateSimilarity(a, b)`: a hit returns the stored value, a miss
        computes the similarity and stores it. */
    method CalculateSimilarity(a: string, b: string) returns (r: real)
      requires Valid()
      modifies this
      ensures Valid()
      ensures CacheKey(a, b) in old(entries) ==> r == old(entries)[CacheKey(a, b)] && entries == old(entries)
      ensures CacheKey(a, b) !in old(entries) ==> r == Similarity(pre, a, b) && entries == old(entries)[CacheKey(a, b) := r]
      ensures '_' !in a && '_' !in b ==> r == Similarity(pre, a, b)
    {
      var key := CacheKey(a, b);
      if key in entries {
        r := entries[key];
        return;
      }
      r := Similarity(pre, a, b);
      entries := entries[key := r];
      forall c, d | '_' !in c && '_' !in d && CacheKey(c, d) == key
        ensures r == Similarity(pre, c, d)
      {
        KeyInjectiveWithoutUnderscores(c, d, a, b);
      }
    }

    /** An entry reaching its time-to-live. */
    method Expire(key: string)
      requires Valid()
      modifies this
      ensures Valid() && entries == old(entries) - {key}
    {
      entries := entries - {key};
    }
  }

  /** A preprocessing under which every text is one token, as a text made of
      word characters and underscores is for the word tokenizer. */
  function WholeText(s: string): seq<string> {
    [s]
  }

  /** Scoring ("x_y", "x_y") and then ("x", "y_x_y") answers the second
      call with the first pair's 1.0, although those texts share no token. */
  method CollisionServesStaleScore() returns (first: real, second: real)
    ensures first == 1.0 && second == 1.0
    ensures Similarity(WholeText, "x", "y_x_y") == 0.0
  {
    var cache := new StringKeyedCache(WholeText);
    first := cache.CalculateSimilarity("x_y", "x_y");
    SelfSimilarity(WholeText, "x_y");
    KeyCollision();
    second := cache.CalculateSimilarity("x", "y_x_y");
    assert TokenSet(WholeText("x")) * TokenSet(WholeText("y_x_y")) == {};
    SimilarityZeroIff(WholeText, "x", "y_x_y");
  }

  /** The table keyed by the pair itself: a hit is always the value a fresh
      computation would give. */
  class PairKeyedCache {
    const pre: Preprocessor
    var entries: map<(string, string), real>

    ghost predicate Valid()
      reads this
    {
      forall p :: p in entries ==> entries[p] == Similarity(pre, p.0, p.1)
    }

    constructor (pre: Preprocessor)
      ensures this.pre == pre && entries == map[] && Valid()
    {
      this.pre := pre;
      entries := map[];
    }

    method CalculateSimilarity(a: string, b: string) returns (r: real)
      requires Valid()
      modifies this
      ensures Valid()
      ensures r == Similarity(pre, a, b)
      ensures entries == old(entries)[(a, b) := r]
    {
      if (a, b) in entries {
        r := entries[(a, b)];
        return;
      }
      r := Similarity(pre, a, b);
      entries := entries[(a, b) := r];
    }

    method Expire(key: (string, string))
      requires Valid()
      modifies this
      ensures Valid() && entries == old(entries) - {key}
    {
      entries := entries - {key};
    }
  }
}
