/** The lexical helpers of the NLP processor: token-set similarity, rule
    based intent detection and frequency-ranked keyword extraction.

    Preprocessing (lower-casing, word tokenisation, stop-word removal and
    stemming) is done by library code; every member here takes it as a
    parameter `pre`, so each property holds whatever preprocessing is used. */
module Nlp {

  /** Text to its sequence of stemmed, non-stop-word tokens. */
  type Preprocessor = string -> seq<string>

  /** The tokens as a set: `new Set(tokens)`. */
  function TokenSet(tokens: seq<string>): set<string> {
    set t | t in tokens
  }

  lemma {:induction false} SubsetCardinality(a: set<string>, b: set<string>)
    requires a <= b
    ensures |a| <= |b|
    ensures |a| == |b| ==> a == b
  {
    if a != {} {
      var x :| x in a;
      SubsetCardinality(a - {x}, b - {x});
    }
  }

  /** The Jaccard index |a ∩ b| / |a ∪ b|, and 0 when the union is empty. */
  function Jaccard(a: set<string>, b: set<string>): (r: real)
    ensures 0.0 <= r <= 1.0
  {
    if |a + b| == 0 then 0.0
    else
      SubsetCardinality(a * b, a + b);
      (|a * b| as real) / (|a + b| as real)
  }

  /** `calculateSimilarity(a, b)` without its cache: the Jaccard index of
      the two preprocessed token sets. */
  function Similarity(pre: Preprocessor, a: string, b: string): (r: real)
    ensures 0.0 <= r <= 1.0
  {
    Jaccard(TokenSet(pre(a)), TokenSet(pre(b)))
  }

  lemma SimilaritySymmetric(pre: Preprocessor, a: string, b: string)
    ensures Similarity(pre, a, b) == Similarity(pre, b, a)
  {
    var x, y := TokenSet(pre(a)), TokenSet(pre(b));
    assert x * y == y * x && x + y == y + x;
  }

  /** Similarity is 1 exactly when both texts have the same non-empty token
      set. */
  lemma SimilarityOneIff(pre: Preprocessor, a: string, b: string)
    ensures Similarity(pre, a, b) == 1.0 <==> TokenSet(pre(a)) == TokenSet(pre(b)) != {}
  {
    var x, y := TokenSet(pre(a)), TokenSet(pre(b));
    if x == y != {} {
      assert x * y == x + y;
    }
    if Similarity(pre, a, b) == 1.0 {
      assert |x + y| != 0;
      var i, u := |x * y| as real, |x + y| as real;
      assert i / u == 1.0;
      assert i == u;
      SubsetCardinality(x * y, x + y);
      assert x * y == x + y;
      assert x == y by {
        assert x <= x + y && y <= x + y;
      }
    }
  }

  /** Similarity is 0 exactly when the token sets share nothing, which
      includes the case where both are empty. */
  lemma SimilarityZeroIff(pre: Preprocessor, a: string, b: string)
    ensures Similarity(pre, a, b) == 0.0 <==> TokenSet(pre(a)) * TokenSet(pre(b)) == {}
  {
    var x, y := TokenSet(pre(a)), TokenSet(pre(b));
    if |x + y| != 0 {
      if x * y != {} {
        var t :| t in x * y;
        assert |x * y| > 0 by { assert t in x * y; }
        PositiveRatio(|x * y| as real, |x + y| as real);
      }
    }
  }

  lemma PositiveRatio(i: real, u: real)
    requires i > 0.0 && u > 0.0
    ensures i / u > 0.0
  {
  }

  lemma SelfSimilarity(pre: Preprocessor, a: string)
    requires pre(a) != []
    ensures Similarity(pre, a, a) == 1.0
  {
    assert pre(a)[0] in TokenSet(pre(a));
    SimilarityOneIff(pre, a, a);
  }

  /** Two texts that preprocess to nothing have similarity 0, not 1. */
  lemma EmptySimilarity(pre: Preprocessor)
    requires pre("") == []
    ensures Similarity(pre, "", "") == 0.0
  {
    SimilarityZeroIff(pre, "", "");
  }

  // ----- intent detection -----

  datatype Intent = Pricing | Instructions | Troubleshooting | Contact | Features | General

  function IntentName(i: Intent): string {
    match i
    case Pricing => "pricing"
    case Instructions => "instructions"
    case Troubleshooting => "troubleshooting"
    case Contact => "contact"
    case Features => "features"
    case General => "general"
  }

  datatype IntentRule = IntentRule(pattern: seq<string>, intent: Intent)

  /** The rules in the order they are tried. */
  const IntentRules: seq<IntentRule> := [
    IntentRule(["price", "cost", "how much"], Pricing),
    IntentRule(["how to", "guide", "tutorial"], Instructions),
    IntentRule(["problem", "error", "not working"], Troubleshooting),
    IntentRule(["contact", "email", "phone", "support"], Contact),
    IntentRule(["feature", "specification", "what can"], Features)
  ]

  /** `pattern.some(keyword => tokens.includes(keyword))`: some keyword is
      equal to a whole token. */
  predicate Fires(rule: IntentRule, tokens: seq<string>) {
    exists k :: k in rule.pattern && k in tokens
  }

  function FirstFiring(rules: seq<IntentRule>, tokens: seq<string>): (r: Intent)
    ensures r != General ==> exists i :: 0 <= i < |rules| && Fires(rules[i], tokens) && rules[i].intent == r
  {
    if rules == [] then General
    else if Fires(rules[0], tokens) then rules[0].intent
    else
      var r := FirstFiring(rules[1..], tokens);
      assert r != General ==> exists i :: 1 <= i < |rules| && Fires(rules[i], tokens) && rules[i].intent == r by {
        if r != General {
          var i :| 0 <= i < |rules[1..]| && Fires(rules[1..][i], tokens) && rules[1..][i].intent == r;
          assert rules[1..][i] == rules[i + 1];
        }
      }
      r
  }

  /** The intent is that of a rule one of whose keywords occurs among the
      tokens, or `General`. */
  function DetectIntent(pre: Preprocessor, text: string): (r: Intent)
    ensures r != General ==> exists i :: 0 <= i < |IntentRules| && Fires(IntentRules[i], pre(text)) && IntentRules[i].intent == r
  {
    FirstFiring(IntentRules, pre(text))
  }

  lemma {:induction false} FirstFiringIsFirst(rules: seq<IntentRule>, tokens: seq<string>, i: nat)
    requires i < |rules| && Fires(rules[i], tokens)
    requires forall j :: 0 <= j < i ==> !Fires(rules[j], tokens)
    ensures FirstFiring(rules, tokens) == rules[i].intent
  {
    if i > 0 {
      assert !Fires(rules[0], tokens);
      FirstFiringIsFirst(rules[1..], tokens, i - 1);
    }
  }

  lemma {:induction false} FirstFiringNone(rules: seq<IntentRule>, tokens: seq<string>)
    requires forall j :: 0 <= j < |rules| ==> !Fires(rules[j], tokens)
    ensures FirstFiring(rules, tokens) == General
  {
    if rules != [] {
      assert !Fires(rules[0], tokens);
      FirstFiringNone(rules[1..], tokens);
    }
  }

  lemma {:induction false} SomeFirstFiring(rules: seq<IntentRule>, tokens: seq<string>, i: nat)
    requires i < |rules| && Fires(rules[i], tokens)
    ensures exists f :: 0 <= f <= i && Fires(rules[f], tokens) && forall j :: 0 <= j < f ==> !Fires(rules[j], tokens)
  {
    if exists g :: 0 <= g < i && Fires(rules[g], tokens) {
      var g :| 0 <= g < i && Fires(rules[g], tokens);
      SomeFirstFiring(rules, tokens, g);
    }
  }

  /** Over any rules none of which names `General`: the result is the
      intent of the first rule that fires, and `General` exactly when none
      fires. */
  lemma FirstFiringSpec(rules: seq<IntentRule>, tokens: seq<string>)
    requires forall i :: 0 <= i < |rules| ==> rules[i].intent != General
    ensures forall i :: (0 <= i < |rules| && Fires(rules[i], tokens) &&
      (forall j :: 0 <= j < i ==> !Fires(rules[j], tokens))) ==>
      FirstFiring(rules, tokens) == rules[i].intent
    ensures FirstFiring(rules, tokens) == General <==>
      forall i :: 0 <= i < |rules| ==> !Fires(rules[i], tokens)
  {
    forall i | 0 <= i < |rules| && Fires(rules[i], tokens) &&
      (forall j :: 0 <= j < i ==> !Fires(rules[j], tokens))
      ensures FirstFiring(rules, tokens) == rules[i].intent
    {
      FirstFiringIsFirst(rules, tokens, i);
    }
    if forall i :: 0 <= i < |rules| ==> !Fires(rules[i], tokens) {
      FirstFiringNone(rules, tokens);
    } else {
      var i :| 0 <= i < |rules| && Fires(rules[i], tokens);
      FiringIsNotGeneral(rules, tokens, i);
    }
  }

  /** When some rule fires, the result is the intent of a rule. */
  lemma FiringIsNotGeneral(rules: seq<IntentRule>, tokens: seq<string>, i: nat)
    requires forall i :: 0 <= i < |rules| ==> rules[i].intent != General
    requires i < |rules| && Fires(rules[i], tokens)
    ensures FirstFiring(rules, tokens) != General
  {
    SomeFirstFiring(rules, tokens, i);
    var f :| 0 <= f <= i && Fires(rules[f], tokens) && forall j :: 0 <= j < f ==> !Fires(rules[j], tokens);
    FirstFiringIsFirst(rules, tokens, f);
  }

  /** The detected intent is that of the first rule with a keyword equal to
      a token; it is `General` exactly when no rule has one. */
  lemma DetectIntentFirstRule(pre: Preprocessor, text: string)
    ensures forall i :: (0 <= i < |IntentRules| && Fires(IntentRules[i], pre(text)) &&
      (forall j :: 0 <= j < i ==> !Fires(IntentRules[j], pre(text)))) ==>
      DetectIntent(pre, text) == IntentRules[i].intent
    ensures DetectIntent(pre, text) == General <==>
      forall i :: 0 <= i < |IntentRules| ==> !Fires(IntentRules[i], pre(text))
  {
    var tokens := pre(text);
    assert forall i :: 0 <= i < |IntentRules| ==> IntentRules[i].intent != General;
    FirstFiringSpec(IntentRules, tokens);
    assert DetectIntent(pre, text) == FirstFiring(IntentRules, tokens);
  }

  /** The rules with the four two-word keywords left out. */
  const SingleWordRules: seq<IntentRule> := [
    IntentRule(["price", "cost"], Pricing),
    IntentRule(["guide", "tutorial"], Instructions),
    IntentRule(["problem", "error"], Troubleshooting),
    IntentRule(["contact", "email", "phone", "support"], Contact),
    IntentRule(["feature", "specification"], Features)
  ]

  lemma {:induction false} SameFiring(rules: seq<IntentRule>, others: seq<IntentRule>, tokens: seq<string>)
    requires |rules| == |others|
    requires forall i :: 0 <= i < |rules| ==>
      rules[i].intent == others[i].intent && (Fires(rules[i], tokens) <==> Fires(others[i], tokens))
    ensures FirstFiring(rules, tokens) == FirstFiring(others, tokens)
  {
    if rules != [] {
      SameFiring(rules[1..], others[1..], tokens);
    }
  }

  /** "how much", "how to", "not working" and "what can" contain a space, so
      they can never equal a token that has none: they never decide the
      intent. */
  lemma PhraseKeywordsNeverFire(pre: Preprocessor, text: string)
    requires forall t :: t in pre(text) ==> ' ' !in t
    ensures DetectIntent(pre, text) == FirstFiring(SingleWordRules, pre(text))
  {
    var tokens := pre(text);
    forall i | 0 <= i < |IntentRules|
      ensures IntentRules[i].intent == SingleWordRules[i].intent
      ensures Fires(IntentRules[i], tokens) <==> Fires(SingleWordRules[i], tokens)
    {
      forall k | k in IntentRules[i].pattern && k !in SingleWordRules[i].pattern
        ensures k !in tokens
      {
        assert ' ' in k;
      }
    }
    SameFiring(IntentRules, SingleWordRules, tokens);
  }

  // ----- keyword extraction -----

  /** Occurrences of `w` in `tokens`. */
  function Count(tokens: seq<string>, w: string): nat {
    if tokens == [] then 0
    else Count(tokens[..|tokens| - 1], w) + (if tokens[|tokens| - 1] == w then 1 else 0)
  }

  lemma {:induction false} CountPositive(tokens: seq<string>, w: string)
    ensures Count(tokens, w) > 0 <==> w in tokens
  {
    if tokens != [] {
      var init := tokens[..|tokens| - 1];
      CountPositive(init, w);
      assert tokens == init + [tokens[|tokens| - 1]];
    }
  }

  predicate Distinct(s: seq<string>) {
    forall i, j :: 0 <= i < j < |s| ==> s[i] != s[j]
  }

  lemma {:induction false} DistinctCardinality(s: seq<string>)
    requires Distinct(s)
    ensures |TokenSet(s)| == |s|
  {
    if s != [] {
      var init := s[..|s| - 1];
      DistinctCardinality(init);
      assert TokenSet(s) == TokenSet(init) + {s[|s| - 1]};
      assert s[|s| - 1] !in TokenSet(init);
    }
  }

  lemma DistinctCons(x: string, s: seq<string>)
    ensures Distinct(s) && x !in s ==> Distinct([x] + s)
  {
    if Distinct(s) && x !in s {
      DistinctConsIndex(x, s);
    }
  }

  lemma DistinctConsIndex(x: string, s: seq<string>)
    requires Distinct(s) && x !in s
    ensures Distinct([x] + s)
  {
    forall i, j | 0 <= i < j < |[x] + s| ensures ([x] + s)[i] != ([x] + s)[j] {
      if i > 0 { assert ([x] + s)[i] == s[i - 1]; }
      assert ([x] + s)[j] == s[j - 1];
    }
  }

  /** Non-increasing by the counts in `freq`. */
  predicate RankedBy(s: seq<string>, freq: map<string, nat>)
    requires forall x :: x in s ==> x in freq
  {
    forall i, j :: 0 <= i < j < |s| ==> freq[s[i]] >= freq[s[j]]
  }

  lemma RankedCons(x: string, s: seq<string>, freq: map<string, nat>)
    requires x in freq && forall y :: y in s ==> y in freq
    ensures RankedBy(s, freq) && (forall y :: y in s ==> freq[x] >= freq[y]) ==> RankedBy([x] + s, freq)
  {
    if RankedBy(s, freq) && (forall y :: y in s ==> freq[x] >= freq[y]) {
      forall i, j | 0 <= i < j < |[x] + s| ensures freq[([x] + s)[i]] >= freq[([x] + s)[j]] {
        assert ([x] + s)[j] == s[j - 1];
        if i > 0 { assert ([x] + s)[i] == s[i - 1]; }
      }
    }
  }

  /** Inserting `w` before the first word with a strictly lower count, which
      keeps words of equal count in the order they came in. */
  function InsertByCount(w: string, s: seq<string>, freq: map<string, nat>): (r: seq<string>)
    requires w in freq && forall x :: x in s ==> x in freq
    ensures |r| == |s| + 1
    ensures forall x :: x in r <==> x == w || x in s
    ensures RankedBy(s, freq) ==> RankedBy(r, freq)
    ensures Distinct(s) && w !in s ==> Distinct(r)
  {
    if s == [] then [w]
    else if freq[w] > freq[s[0]] then
      DistinctCons(w, s);
      [w] + s
    else
      var rest := InsertByCount(w, s[1..], freq);
      DistinctCons(s[0], rest);
      RankedCons(s[0], rest, freq);
      [s[0]] + rest
  }

  /** The stable sort `(a, b) => b[1] - a[1]` of the frequency entries. */
  function SortByCount(ws: seq<string>, freq: map<string, nat>): (r: seq<string>)
    requires forall x :: x in ws ==> x in freq
    ensures |r| == |ws|
    ensures forall x :: x in r <==> x in ws
    ensures RankedBy(r, freq)
    ensures Distinct(ws) ==> Distinct(r)
  {
    if ws == [] then []
    else
      var init, last := ws[..|ws| - 1], ws[|ws| - 1];
      assert ws == init + [last];
      assert Distinct(ws) ==> Distinct(init) && last !in init by {
        if Distinct(ws) {
          forall i, j | 0 <= i < j < |init| ensures init[i] != init[j] {
            assert init[i] == ws[i] && init[j] == ws[j];
          }
        }
      }
      InsertByCount(last, SortByCount(init, freq), freq)
  }

  lemma {:induction false} InsertByCountPermutes(w: string, s: seq<string>, freq: map<string, nat>)
    requires w in freq && forall x :: x in s ==> x in freq
    ensures multiset(InsertByCount(w, s, freq)) == multiset(s) + multiset{w}
  {
    if s != [] && freq[w] <= freq[s[0]] {
      InsertByCountPermutes(w, s[1..], freq);
      assert s == [s[0]] + s[1..];
    }
  }

  /** The sort keeps every word with its multiplicity, for any input. */
  lemma {:induction false} SortByCountPermutes(ws: seq<string>, freq: map<string, nat>)
    requires forall x :: x in ws ==> x in freq
    ensures multiset(SortByCount(ws, freq)) == multiset(ws)
  {
    if ws != [] {
      var init, last := ws[..|ws| - 1], ws[|ws| - 1];
      assert ws == init + [last];
      SortByCountPermutes(init, freq);
      InsertByCountPermutes(last, SortByCount(init, freq), freq);
    }
  }

  /** How many elements `slice(0, k)` keeps of an array of length `n`: a
      negative `k` counts back from the end. */
  function SliceEnd(n: nat, k: int): (m: nat)
    ensures m <= n
    ensures k >= 0 ==> m == if k <= n then k else n
    ensures k < 0 ==> m == if n + k >= 0 then n + k else 0
  {
    if k >= 0 then (if k <= n then k else n)
    else if n + k >= 0 then n + k else 0
  }

  /** The `forEach` that fills the frequency dictionary: how often each
      token occurs, and the keys in the order they were first seen. */
  method Tally(tokens: seq<string>) returns (frequency: map<string, nat>, entries: seq<string>)
    ensures forall w :: w in frequency <==> w in tokens
    ensures forall w :: w in frequency ==> frequency[w] == Count(tokens, w)
    ensures forall w :: w in entries <==> w in frequency
    ensures Distinct(entries)
  {
    frequency, entries := map[], [];
    for i := 0 to |tokens|
      invariant forall w :: Count(tokens[..i], w) == if w in frequency then frequency[w] else 0
      invariant forall w :: w in frequency <==> w in tokens[..i]
      invariant forall w :: w in entries <==> w in frequency
      invariant Distinct(entries)
    {
      var t := tokens[i];
      assert tokens[..i + 1][..i] == tokens[..i];
      assert tokens[..i + 1] == tokens[..i] + [t];
      if t !in frequency {
        entries := entries + [t];
      }
      frequency := frequency[t := (if t in frequency then frequency[t] else 0) + 1];
    }
    assert tokens[..|tokens|] == tokens;
  }

  /** `extractKeywords(text, maxKeywords)`: the distinct tokens of `text`,
      most frequent first, cut to `maxKeywords` as `slice` does. Every token
      left out occurs no more often than any token kept. */
  method ExtractKeywords(pre: Preprocessor, text: string, maxKeywords: int) returns (keywords: seq<string>)
    ensures |keywords| == SliceEnd(|TokenSet(pre(text))|, maxKeywords)
    ensures Distinct(keywords)
    ensures forall i :: 0 <= i < |keywords| ==> keywords[i] in pre(text)
    ensures forall i, j :: 0 <= i < j < |keywords| ==> Count(pre(text), keywords[i]) >= Count(pre(text), keywords[j])
    ensures forall w, i :: w in pre(text) && w !in keywords && 0 <= i < |keywords| ==>
      Count(pre(text), keywords[i]) >= Count(pre(text), w)
  {
    var tokens := pre(text);
    var frequency, entries := Tally(tokens);
    var ranked := SortByCount(entries, frequency);
    assert TokenSet(tokens) == TokenSet(ranked);
    DistinctCardinality(ranked);
    var m := SliceEnd(|ranked|, maxKeywords);
    KeptOutrankDropped(tokens, frequency, ranked, m);
    keywords := ranked[..m];
  }

  /** In a ranking of every token, a prefix holds no token that occurs less
      often than one outside it. */
  lemma KeptOutrankDropped(tokens: seq<string>, frequency: map<string, nat>, ranked: seq<string>, m: nat)
    requires forall w :: w in frequency <==> w in tokens
    requires forall w :: w in frequency ==> frequency[w] == Count(tokens, w)
    requires forall w :: w in ranked <==> w in frequency
    requires RankedBy(ranked, frequency) && m <= |ranked|
    ensures forall w, i :: w in tokens && w !in ranked[..m] && 0 <= i < m ==>
      Count(tokens, ranked[..m][i]) >= Count(tokens, w)
  {
    forall w, i | w in tokens && w !in ranked[..m] && 0 <= i < m
      ensures Count(tokens, ranked[..m][i]) >= Count(tokens, w)
    {
      var j :| 0 <= j < |ranked| && ranked[j] == w;
      assert forall k :: 0 <= k < m ==> ranked[k] == ranked[..m][k] && ranked[..m][k] in ranked[..m];
      assert ranked[..m][i] == ranked[i];
    }
  }

  // ----- the frequency table as written -----

  /** What `(frequency[token] || 0) + 1` stores in a plain object literal: a
      number, or a string when the key is inherited from `Object.prototype`
      (a function plus 1 concatenates to text). */
  datatype JsCount = Number(n: nat) | Concatenated

  /** The one lower-case key a plain object literal inherits a truthy value
      for (besides `__proto__`, which this model does not cover). */
  const InheritedKey := "constructor"

  function TallyAsWritten(tokens: seq<string>): (r: (map<string, JsCount>, seq<string>))
    ensures forall w :: w in r.1 <==> w in r.0
    ensures forall w :: w in r.0 <==> w in tokens
  {
    if tokens == [] then (map[], [])
    else
      var (freq, keys) := TallyAsWritten(tokens[..|tokens| - 1]);
      var t := tokens[|tokens| - 1];
      var next :=
        if t in freq then (match freq[t] case Number(n) => Number(n + 1) case Concatenated => Concatenated)
        else if t == InheritedKey then Concatenated
        else Number(1);
      (freq[t := next], if t in freq then keys else keys + [t])
  }

  /** `b[1] - a[1] < 0`: only two numbers compare; a string operand makes the
      difference NaN, which the sort treats as "equal". */
  predicate OutranksAsWritten(a: JsCount, b: JsCount) {
    a.Number? && b.Number? && a.n > b.n
  }

  function InsertAsWritten(w: string, s: seq<string>, freq: map<string, JsCount>): (r: seq<string>)
    requires w in freq && forall x :: x in s ==> x in freq
    ensures forall x :: x in r <==> x == w || x in s
  {
    if s == [] then [w]
    else if OutranksAsWritten(freq[w], freq[s[0]]) then [w] + s
    else [s[0]] + InsertAsWritten(w, s[1..], freq)
  }

  function SortAsWritten(ws: seq<string>, freq: map<string, JsCount>): (r: seq<string>)
    requires forall x :: x in ws ==> x in freq
    ensures forall x :: x in r ==> x in ws
  {
    if ws == [] then []
    else
      var rest := SortAsWritten(ws[..|ws| - 1], freq);
      InsertAsWritten(ws[|ws| - 1], rest, freq)
  }

  /** `extractKeywords` as written, over already preprocessed tokens, for a
      non-negative limit. */
  function KeywordsAsWritten(tokens: seq<string>, maxKeywords: nat): (r: seq<string>)
    ensures |r| <= maxKeywords
    ensures forall w :: w in r ==> w in tokens
  {
    var (freq, keys) := TallyAsWritten(tokens);
    var ranked := SortAsWritten(keys, freq);
    ranked[..if maxKeywords <= |ranked| then maxKeywords else |ranked|]
  }

  /** The token "constructor" is counted as text, so it never compares, and
      once listed first it stays ahead of a token that occurs twice as often:
      asking for one keyword returns it instead of "refund". */
  lemma ConstructorOutranksMoreFrequentToken()
    ensures KeywordsAsWritten(["constructor", "refund", "refund"], 1) == ["constructor"]
    ensures Count(["constructor", "refund", "refund"], "refund") == 2
    ensures Count(["constructor", "refund", "refund"], "constructor") == 1
  {
    var tokens := ["constructor", "refund", "refund"];
    assert tokens[..2] == ["constructor", "refund"];
    assert tokens[..2][..1] == ["constructor"];
    assert ["constructor"][..0] == [];
    assert TallyAsWritten([]) == (map[], []);
    var t1 := TallyAsWritten(["constructor"]);
    assert t1.1 == ["constructor"];
    assert t1.0 == map["constructor" := Concatenated];
    assert ["constructor", "refund"][..1] == ["constructor"];
    var t2 := TallyAsWritten(["constructor", "refund"]);
    assert "refund" !in t1.0;
    assert t2.1 == ["constructor", "refund"];
    assert t2.0 == map["constructor" := Concatenated, "refund" := Number(1)];
    var t3 := TallyAsWritten(tokens);
    var freq := map["constructor" := Concatenated, "refund" := Number(2)];
    assert t3.1 == ["constructor", "refund"];
    assert t3.0 == freq;
    assert ["constructor", "refund"][..1] == ["constructor"];
    assert SortAsWritten(["constructor"], freq) == ["constructor"];
    assert SortAsWritten(["constructor", "refund"], freq) == ["constructor", "refund"];
  }
}
