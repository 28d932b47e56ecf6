/** Ranked suggestions: confidences from weighted features, a stable order by confidence, and
    subscribers that show a window of the best ones. */
module Ranking {
  /** The url of the component that proposed, and its id for the proposal. */
  type Key = (string, string)

  /** What the code checks of every score and so of every confidence hint. */
  type Score = x: real | 0.0 <= x <= 1.0

  datatype Prototype = Prototype(key: Key, uuid: string, hint: Score, headline: string)

  /** `suggestion` is the shared prototype, `confidence` its latest rank. */
  datatype Ranked = Ranked(suggestion: Prototype, confidence: real)
  datatype Feature = Feature(weight: real, score: (string, Prototype) -> real)

  // ---------------------------------------------------------------- confidence

  /** Every feature scores between 0 and 1. */
  ghost predicate Scored(features: seq<Feature>) {
    forall f, q, p :: f in features ==> 0.0 <= f.score(q, p) <= 1.0
  }

  /** The sum of the positive weights. */
  function Norm(features: seq<Feature>): real {
    if features == [] then 0.0
    else
      var f := features[|features| - 1];
      Norm(features[..|features| - 1]) + (if f.weight > 0.0 then f.weight else 0.0)
  }

  function Sum(features: seq<Feature>, query: string, p: Prototype): real {
    if features == [] then 0.0
    else
      var f := features[|features| - 1];
      Sum(features[..|features| - 1], query, p) + f.weight * f.score(query, p)
  }

  function Confidence(features: seq<Feature>, query: string, p: Prototype): real
    requires Norm(features) > 0.0
  {
    var sum := Sum(features, query, p);
    (if sum > 0.0 then sum else 0.0) / Norm(features)
  }

  lemma ScoreBelowWeight(weight: real, score: real)
    requires 0.0 <= score <= 1.0
    ensures weight * score <= if weight > 0.0 then weight else 0.0
  {
    if weight > 0.0 {
      assert weight * (1.0 - score) >= 0.0;
    } else {
      assert (-weight) * score >= 0.0;
    }
  }

  lemma {:induction false} SumBelowNorm(features: seq<Feature>, query: string, p: Prototype)
    requires Scored(features)
    ensures Sum(features, query, p) <= Norm(features)
  {
    if features != [] {
      var f := features[|features| - 1];
      assert f in features;
      SumBelowNorm(features[..|features| - 1], query, p);
      ScoreBelowWeight(f.weight, f.score(query, p));
    }
  }

  lemma Quotient(a: real, b: real)
    requires 0.0 <= a <= b && b > 0.0
    ensures 0.0 <= a / b <= 1.0
  {
    var q := a / b;
    assert q * b == a;
    assert q < 0.0 ==> q * b < 0.0;
    assert q > 1.0 ==> (q - 1.0) * b > 0.0;
  }

  /** Whatever the signs of the weights, a confidence lies between 0 and 1. */
  lemma ConfidenceInRange(features: seq<Feature>, query: string, p: Prototype)
    requires Scored(features) && Norm(features) > 0.0
    ensures 0.0 <= Confidence(features, query, p) <= 1.0
  {
    SumBelowNorm(features, query, p);
    var sum, norm := Sum(features, query, p), Norm(features);
    if sum > 0.0 {
      Quotient(sum, norm);
    } else {
      Quotient(0.0, norm);
    }
  }

  /** Running totals: from 0, each is one feature's weighted score further than the one before. */
  ghost predicate Totals(features: seq<Feature>, query: string, p: Prototype, totals: seq<real>) {
    && |totals| == |features| + 1 && totals[0] == 0.0
    && forall i :: 0 <= i < |features| ==>
         totals[i + 1] == totals[i] + features[i].weight * features[i].score(query, p)
  }

  /** `v` is what the features add up to for the suggestion. */
  ghost predicate WeighsTo(features: seq<Feature>, query: string, p: Prototype, v: real) {
    exists totals :: Totals(features, query, p, totals) && totals[|features|] == v
  }

  lemma TotalsGrow(features: seq<Feature>, query: string, p: Prototype, totals: seq<real>, last: real)
    requires features != [] && Totals(features[..|features| - 1], query, p, totals)
    requires last ==
      totals[|features| - 1] + features[|features| - 1].weight * features[|features| - 1].score(query, p)
    ensures Totals(features, query, p, totals + [last])
  {
    var init, more := features[..|features| - 1], totals + [last];
    forall i | 0 <= i < |features|
      ensures more[i + 1] == more[i] + features[i].weight * features[i].score(query, p)
    {
      if i < |init| {
        assert features[i] == init[i] && more[i] == totals[i] && more[i + 1] == totals[i + 1];
      }
    }
  }

  lemma {:induction false} SumTotals(features: seq<Feature>, query: string, p: Prototype) returns (totals: seq<real>)
    ensures Totals(features, query, p, totals) && totals[|features|] == Sum(features, query, p)
  {
    if features == [] {
      totals := [0.0];
    } else {
      var init := SumTotals(features[..|features| - 1], query, p);
      TotalsGrow(features, query, p, init, Sum(features, query, p));
      totals := init + [Sum(features, query, p)];
    }
  }

  lemma WeighsSum(features: seq<Feature>, query: string, p: Prototype)
    ensures WeighsTo(features, query, p, Sum(features, query, p))
  {
    var totals := SumTotals(features, query, p);
  }

  /** Two sums with one term that differs. */
  lemma OneTermDiffers(a: seq<real>, b: seq<real>, s: seq<real>, t: seq<real>, i: nat)
    requires |a| == |b| == |s| + 1 == |t| + 1 && a[0] == b[0] && i < |s|
    requires forall j :: 0 <= j < |s| ==> a[j + 1] == a[j] + s[j]
    requires forall j :: 0 <= j < |s| ==> b[j + 1] == b[j] + t[j]
    requires forall j :: 0 <= j < |s| && j != i ==> s[j] == t[j]
    ensures a[|s|] - b[|s|] == s[i] - t[i]
  {
    for n := 0 to |s|
      invariant a[n] - b[n] == if n <= i then 0.0 else s[i] - t[i]
    {
    }
  }

  /** The weighted score of each feature. */
  ghost predicate Terms(features: seq<Feature>, query: string, p: Prototype, terms: seq<real>) {
    |terms| == |features|
    && forall j :: 0 <= j < |terms| ==> terms[j] == features[j].weight * features[j].score(query, p)
  }

  lemma TermsOfTotals(features: seq<Feature>, query: string, p: Prototype, totals: seq<real>) returns (terms: seq<real>)
    requires Totals(features, query, p, totals)
    ensures Terms(features, query, p, terms)
    ensures forall j :: 0 <= j < |terms| ==> totals[j + 1] == totals[j] + terms[j]
  {
    terms := seq(|features|, j requires 0 <= j < |features| => features[j].weight * features[j].score(query, p));
  }

  lemma Distributes(w: real, x: real, y: real)
    ensures w * x - w * y == w * (x - y)
    ensures x == y ==> w * (x - y) == 0.0
  {
  }

  lemma TermsAt(features: seq<Feature>, query: string, p: Prototype, q: Prototype, s: seq<real>, t: seq<real>, j: nat)
    requires Terms(features, query, p, s) && Terms(features, query, q, t) && j < |features|
    ensures s[j] - t[j] == features[j].weight * (features[j].score(query, p) - features[j].score(query, q))
  {
    Distributes(features[j].weight, features[j].score(query, p), features[j].score(query, q));
  }

  /** Where only one feature scores two suggestions differently, what they add up to differs by its weight times
      that difference, whatever the sign of the weight. */
  lemma WeightDecides(features: seq<Feature>, i: nat, query: string, p: Prototype, q: Prototype, v: real, w: real)
    requires i < |features| && WeighsTo(features, query, p, v) && WeighsTo(features, query, q, w)
    requires forall j :: 0 <= j < |features| && j != i ==> features[j].score(query, p) == features[j].score(query, q)
    ensures v - w == features[i].weight * (features[i].score(query, p) - features[i].score(query, q))
  {
    var a :| Totals(features, query, p, a) && a[|features|] == v;
    var b :| Totals(features, query, q, b) && b[|features|] == w;
    var s := TermsOfTotals(features, query, p, a);
    var t := TermsOfTotals(features, query, q, b);
    assert a[0] == b[0];
    hide Totals, WeighsTo, Terms;
    forall j | 0 <= j < |features| && j != i ensures s[j] == t[j] {
      TermsAt(features, query, p, q, s, t, j);
      Distributes(features[j].weight, features[j].score(query, p), features[j].score(query, q));
    }
    TermsAt(features, query, p, q, s, t, i);
    OneTermDiffers(a, b, s, t, i);
  }

  // ---------------------------------------------------------------- the stable order

  predicate Nonincreasing(s: seq<Ranked>) {
    forall i, j :: 0 <= i < j < |s| ==> s[i].confidence >= s[j].confidence
  }

  function Only(x: Ranked, c: real): seq<Ranked> {
    if x.confidence == c then [x] else []
  }

  /** The entries of one confidence, in their order. */
  function AtLevel(s: seq<Ranked>, c: real): seq<Ranked> {
    if s == [] then []
    else AtLevel(s[..|s| - 1], c) + Only(s[|s| - 1], c)
  }

  /** Moves a new last entry up past all those of lower confidence. */
  function Insert(s: seq<Ranked>, x: Ranked): seq<Ranked> {
    if s == [] then [x]
    else if s[|s| - 1].confidence < x.confidence then Insert(s[..|s| - 1], x) + [s[|s| - 1]]
    else s + [x]
  }

  function StableSort(s: seq<Ranked>): seq<Ranked> {
    if s == [] then [] else Insert(StableSort(s[..|s| - 1]), s[|s| - 1])
  }

  lemma AtLevelAppend(s: seq<Ranked>, x: Ranked, c: real)
    ensures AtLevel(s + [x], c) == AtLevel(s, c) + Only(x, c)
  {
    assert (s + [x])[..|s|] == s;
  }

  lemma {:induction false} InsertKeeps(s: seq<Ranked>, x: Ranked)
    ensures multiset(Insert(s, x)) == multiset(s) + multiset{x}
  {
    if s != [] && s[|s| - 1].confidence < x.confidence {
      InsertKeeps(s[..|s| - 1], x);
      assert s == s[..|s| - 1] + [s[|s| - 1]];
    }
  }

  lemma {:induction false} InsertKeepsLevels(s: seq<Ranked>, x: Ranked, c: real)
    ensures AtLevel(Insert(s, x), c) == AtLevel(s, c) + Only(x, c)
  {
    AtLevelAppend(s, x, c);
    if s != [] && s[|s| - 1].confidence < x.confidence {
      var y := s[|s| - 1];
      InsertKeepsLevels(s[..|s| - 1], x, c);
      AtLevelAppend(Insert(s[..|s| - 1], x), y, c);
      assert Only(x, c) == [] || Only(y, c) == [];
    } else {
      assert s == [] ==> s + [x] == [x];
    }
  }

  lemma InsertMembers(s: seq<Ranked>, x: Ranked)
    ensures forall r :: r in Insert(s, x) ==> r == x || r in s
  {
    hide Insert;
    InsertKeeps(s, x);
    forall r | r in Insert(s, x) ensures r == x || r in s {
      assert r in multiset(Insert(s, x));
    }
  }

  lemma {:induction false} InsertSorts(s: seq<Ranked>, x: Ranked)
    requires Nonincreasing(s)
    ensures Nonincreasing(Insert(s, x))
  {
    if s != [] && s[|s| - 1].confidence < x.confidence {
      var init, y := s[..|s| - 1], s[|s| - 1];
      InsertSorts(init, x);
      InsertMembers(init, x);
      assert Insert(s, x) == Insert(init, x) + [y];
      hide Insert;
      forall r | r in Insert(init, x) ensures r.confidence >= y.confidence {
      }
    }
  }

  lemma {:induction false} StableSortPermutes(s: seq<Ranked>)
    ensures multiset(StableSort(s)) == multiset(s)
  {
    hide Insert;
    if s != [] {
      var init, x := s[..|s| - 1], s[|s| - 1];
      StableSortPermutes(init);
      InsertKeeps(StableSort(init), x);
      assert s == init + [x];
      assert multiset(s) == multiset(init) + multiset{x};
    }
  }

  lemma {:induction false} StableSortKeeps(s: seq<Ranked>, c: real)
    ensures AtLevel(StableSort(s), c) == AtLevel(s, c)
  {
    hide Insert;
    if s != [] {
      var n := |s| - 1;
      StableSortKeeps(s[..n], c);
      InsertKeepsLevels(StableSort(s[..n]), s[n], c);
    }
  }

  lemma {:induction false} StableSortSorts(s: seq<Ranked>)
    ensures Nonincreasing(StableSort(s))
  {
    if s != [] {
      StableSortSorts(s[..|s| - 1]);
      InsertSorts(StableSort(s[..|s| - 1]), s[|s| - 1]);
    }
  }

  ghost predicate SameLevels(s: seq<Ranked>, t: seq<Ranked>) {
    forall c :: AtLevel(s, c) == AtLevel(t, c)
  }

  /** The last entry has the least confidence, and is the last of its level. */
  lemma LastOfLevel(s: seq<Ranked>)
    requires s != []
    ensures var x := s[|s| - 1];
      AtLevel(s, x.confidence) != [] && AtLevel(s, x.confidence)[|AtLevel(s, x.confidence)| - 1] == x
  {
  }

  lemma LastIsLeast(s: seq<Ranked>, r: Ranked)
    requires Nonincreasing(s) && r in s
    ensures r.confidence >= s[|s| - 1].confidence
  {
    var i :| 0 <= i < |s| && s[i] == r;
  }

  lemma {:induction false} LevelMember(s: seq<Ranked>, c: real)
    ensures forall r :: r in AtLevel(s, c) <==> r in s && r.confidence == c
  {
    if s != [] {
      LevelMember(s[..|s| - 1], c);
      assert s == s[..|s| - 1] + [s[|s| - 1]];
    }
  }

  lemma LastInOther(s: seq<Ranked>, t: seq<Ranked>)
    requires s != []
    requires AtLevel(s, s[|s| - 1].confidence) == AtLevel(t, s[|s| - 1].confidence)
    ensures s[|s| - 1] in t
  {
    LastOfLevel(s);
    LevelMember(t, s[|s| - 1].confidence);
  }

  lemma SameLevelsSameLast(s: seq<Ranked>, t: seq<Ranked>, x: Ranked, y: Ranked)
    requires Nonincreasing(s) && Nonincreasing(t) && s != [] && t != []
    requires x == s[|s| - 1] && y == t[|t| - 1]
    requires AtLevel(s, x.confidence) == AtLevel(t, x.confidence)
    requires AtLevel(s, y.confidence) == AtLevel(t, y.confidence)
    ensures x == y
  {
    LastInOther(s, t);
    LastInOther(t, s);
    LastIsLeast(s, y);
    LastIsLeast(t, x);
    LastOfLevel(s);
    LastOfLevel(t);
  }

  lemma SameLevelsAt(s: seq<Ranked>, t: seq<Ranked>, c: real)
    requires SameLevels(s, t)
    ensures AtLevel(s, c) == AtLevel(t, c)
  {
  }

  lemma SameEnding(a: seq<Ranked>, b: seq<Ranked>, end: seq<Ranked>)
    requires a + end == b + end
    ensures a == b
  {
    assert |a| == |b|;
    assert (a + end)[..|a|] == a && (b + end)[..|b|] == b;
  }

  lemma SameLevelsInit(a: seq<Ranked>, b: seq<Ranked>, x: Ranked)
    requires SameLevels(a + [x], b + [x])
    ensures SameLevels(a, b)
  {
    forall c ensures AtLevel(a, c) == AtLevel(b, c) {
      AtLevelAppend(a, x, c);
      AtLevelAppend(b, x, c);
      SameEnding(AtLevel(a, c), AtLevel(b, c), Only(x, c));
    }
  }

  lemma NoLevel(c: real)
    ensures AtLevel([], c) == []
  {
  }

  lemma NonincreasingInit(s: seq<Ranked>)
    requires Nonincreasing(s) && s != []
    ensures Nonincreasing(s[..|s| - 1])
  {
  }

  lemma {:induction false} SameLevelsSame(s: seq<Ranked>, t: seq<Ranked>)
    requires Nonincreasing(s) && Nonincreasing(t) && SameLevels(s, t)
    ensures s == t
    decreases |s|
  {
    hide SameLevels, AtLevel, Nonincreasing;
    if s == [] && t != [] {
      SameLevelsAt(s, t, t[|t| - 1].confidence);
      LastOfLevel(t);
      NoLevel(t[|t| - 1].confidence);
    } else if s != [] && t == [] {
      SameLevelsAt(s, t, s[|s| - 1].confidence);
      LastOfLevel(s);
      NoLevel(s[|s| - 1].confidence);
    } else if s != [] {
      var x, y, a, b := s[|s| - 1], t[|t| - 1], s[..|s| - 1], t[..|t| - 1];
      SameLevelsAt(s, t, x.confidence);
      SameLevelsAt(s, t, y.confidence);
      SameLevelsSameLast(s, t, x, y);
      assert s == a + [x] && t == b + [x];
      SameLevelsInit(a, b, x);
      NonincreasingInit(s);
      NonincreasingInit(t);
      SameLevelsSame(a, b);
    }
  }

  /** Sorting by confidence without disturbing equals leaves no choice: any list that is nonincreasing
      and keeps the entries of each confidence in order is the stable sort. */
  lemma StableSortUnique(s: seq<Ranked>, t: seq<Ranked>)
    requires Nonincreasing(t) && SameLevels(s, t)
    ensures t == StableSort(s)
  {
    StableSortSorts(s);
    forall c ensures AtLevel(StableSort(s), c) == AtLevel(t, c) { StableSortKeeps(s, c); }
    SameLevelsSame(StableSort(s), t);
  }

  // ---------------------------------------------------------------- lists of suggestions

  function Rescored(s: seq<Ranked>, features: seq<Feature>, query: string): (r: seq<Ranked>)
    requires Norm(features) > 0.0
    ensures |r| == |s|
  {
    seq(|s|, i requires 0 <= i < |s| => Ranked(s[i].suggestion, Confidence(features, query, s[i].suggestion)))
  }

  function Without(s: seq<Ranked>, key: Key): seq<Ranked> {
    if s == [] then []
    else Without(s[..|s| - 1], key) + if s[|s| - 1].suggestion.key == key then [] else [s[|s| - 1]]
  }

  function Window(s: seq<Ranked>, count: nat): (r: seq<Ranked>)
    ensures r <= s && (r == s || |r| == count) && |r| <= count
  {
    if count < |s| then s[..count] else s
  }

  predicate Distinct(s: seq<Ranked>) {
    forall i, j :: 0 <= i < j < |s| ==> s[i].suggestion.key != s[j].suggestion.key
  }

  ghost function Keys(s: seq<Ranked>): set<Key> {
    set r | r in s :: r.suggestion.key
  }

  predicate InRange(s: seq<Ranked>) {
    forall r :: r in s ==> 0.0 <= r.confidence <= 1.0
  }

  lemma {:induction false} WithoutMembers(s: seq<Ranked>, key: Key)
    ensures forall r :: r in Without(s, key) <==> r in s && r.suggestion.key != key
    ensures |Without(s, key)| <= |s| && (|Without(s, key)| == |s| <==> key !in Keys(s))
  {
    if s != [] {
      var init, x := s[..|s| - 1], s[|s| - 1];
      WithoutMembers(init, key);
      assert s == init + [x];
      assert Keys(s) == Keys(init) + {x.suggestion.key};
    }
  }

  lemma {:induction false} WithoutDistinct(s: seq<Ranked>, key: Key)
    requires Distinct(s)
    ensures Distinct(Without(s, key))
  {
    if s != [] {
      var init, x := s[..|s| - 1], s[|s| - 1];
      WithoutDistinct(init, key);
      WithoutMembers(init, key);
      var t := Without(init, key);
      assert Without(s, key) == t + if x.suggestion.key == key then [] else [x];
      hide Without;
      forall i | 0 <= i < |t| ensures t[i].suggestion.key != x.suggestion.key {
        assert t[i] in init;
      }
    }
  }

  lemma {:induction false} WithoutSorted(s: seq<Ranked>, key: Key)
    requires Nonincreasing(s)
    ensures Nonincreasing(Without(s, key))
  {
    if s != [] {
      var init, x := s[..|s| - 1], s[|s| - 1];
      WithoutSorted(init, key);
      WithoutMembers(init, key);
      var t := Without(init, key);
      assert Without(s, key) == t + if x.suggestion.key == key then [] else [x];
      hide Without;
      forall i | 0 <= i < |t| ensures t[i].confidence >= x.confidence {
        assert t[i] in init;
      }
    }
  }

  lemma WithoutOrder(s: seq<Ranked>, key: Key)
    ensures Distinct(s) ==> Distinct(Without(s, key))
    ensures Nonincreasing(s) ==> Nonincreasing(Without(s, key))
  {
    if Distinct(s) { WithoutDistinct(s, key); }
    if Nonincreasing(s) { WithoutSorted(s, key); }
  }

  lemma {:induction false} InsertDistinct(s: seq<Ranked>, x: Ranked)
    requires Distinct(s) && forall r :: r in s ==> r.suggestion.key != x.suggestion.key
    ensures Distinct(Insert(s, x))
  {
    if s != [] && s[|s| - 1].confidence < x.confidence {
      var init, y := s[..|s| - 1], s[|s| - 1];
      InsertDistinct(init, x);
      InsertMembers(init, x);
      assert Insert(s, x) == Insert(init, x) + [y];
      hide Insert;
      assert y in s;
      forall r | r in Insert(init, x) ensures r.suggestion.key != y.suggestion.key {
      }
    }
  }

  /** Sorting keeps the members and their being distinct. */
  lemma {:induction false} SortMembers(s: seq<Ranked>)
    ensures forall r :: r in StableSort(s) <==> r in s
    ensures Distinct(s) ==> Distinct(StableSort(s))
  {
    StableSortPermutes(s);
    forall r ensures r in StableSort(s) <==> r in s {
      assert r in multiset(StableSort(s)) <==> r in multiset(s);
    }
    if s != [] {
      var init, x := s[..|s| - 1], s[|s| - 1];
      SortMembers(init);
      if Distinct(s) {
        var t := StableSort(init);
        forall r | r in t ensures r.suggestion.key != x.suggestion.key {
          assert r in init;
        }
        InsertDistinct(t, x);
      }
    }
  }

  /** What ranking leaves of a list: the same suggestions, rescored and stably sorted. */
  lemma RankedList(s: seq<Ranked>, features: seq<Feature>, query: string)
    requires Scored(features) && Norm(features) > 0.0
    ensures var r := StableSort(Rescored(s, features, query));
      && Nonincreasing(r) && InRange(r) && Keys(r) == Keys(s)
      && (Distinct(s) ==> Distinct(r))
      && (forall x :: x in r ==> exists y :: y in s && y.suggestion == x.suggestion)
  {
    var scored := Rescored(s, features, query);
    StableSortSorts(scored);
    SortMembers(scored);
    forall x | x in scored ensures 0.0 <= x.confidence <= 1.0 && exists y :: y in s && y.suggestion == x.suggestion {
      var i :| 0 <= i < |scored| && scored[i] == x;
      ConfidenceInRange(features, query, s[i].suggestion);
      assert s[i] in s && s[i].suggestion == x.suggestion;
    }
    forall k | k in Keys(s) ensures k in Keys(StableSort(scored)) {
      var i :| 0 <= i < |s| && s[i].suggestion.key == k;
      assert scored[i] in scored;
    }
  }

  // ---------------------------------------------------------------- the list and its subscribers

  /** A listener that wants `count` suggestions, and those it displays. */
  datatype Subscriber = Subscriber(count: nat, shown: seq<Ranked>)

  ghost predicate Displayed(subscribers: seq<Subscriber>, s: seq<Ranked>) {
    forall i :: 0 <= i < |subscribers| ==> subscribers[i].shown == Window(s, subscribers[i].count)
  }

  /** The same subscribers, each with its window size. */
  predicate SameWindows(before: seq<Subscriber>, after: seq<Subscriber>) {
    |after| == |before| && forall i :: 0 <= i < |after| ==> after[i].count == before[i].count
  }

  /** The first entry with the given suggestion id, as a list of at most one. */
  function FirstWith(s: seq<Ranked>, uuid: string): (r: seq<Ranked>)
    ensures |r| <= 1
  {
    if s == [] then [] else if s[0].suggestion.uuid == uuid then [s[0]] else FirstWith(s[1..], uuid)
  }

  lemma {:induction false} FirstWithIsFirst(s: seq<Ranked>, uuid: string)
    ensures FirstWith(s, uuid) == [] <==> forall x :: x in s ==> x.suggestion.uuid != uuid
    ensures FirstWith(s, uuid) != [] ==>
      exists i :: 0 <= i < |s| && [s[i]] == FirstWith(s, uuid) && s[i].suggestion.uuid == uuid
                  && forall j :: 0 <= j < i ==> s[j].suggestion.uuid != uuid
  {
    if s != [] {
      FirstWithIsFirst(s[1..], uuid);
      assert s == [s[0]] + s[1..];
      if s[0].suggestion.uuid != uuid && FirstWith(s[1..], uuid) != [] {
        var i :| 0 <= i < |s| - 1 && [s[1..][i]] == FirstWith(s[1..], uuid) && s[1..][i].suggestion.uuid == uuid
                 && forall j :: 0 <= j < i ==> s[1..][j].suggestion.uuid != uuid;
        forall j | 0 <= j < i + 1 ensures s[j].suggestion.uuid != uuid {
          if j > 0 { assert s[j] == s[1..][j - 1]; }
        }
        assert s[i + 1] == s[1..][i];
      }
    }
  }

  class RankedSuggestions {
    var suggestions: seq<Ranked>
    var features: seq<Feature>
    var normalizationFactor: real
    var subscribers: seq<Subscriber>

    ghost predicate Weighted()
      reads this
    {
      Scored(features) && normalizationFactor == Norm(features)
    }

    constructor ()
      ensures suggestions == [] && features == [] && subscribers == [] && Weighted()
    {
      suggestions, features, normalizationFactor, subscribers := [], [], 0.0, [];
    }

    /** Only positive weights count towards the normalization. */
    method AddRankingFeature(f: Feature)
      requires Weighted() && forall q, p :: 0.0 <= f.score(q, p) <= 1.0
      modifies this`features, this`normalizationFactor
      ensures Weighted() && features == old(features) + [f]
      ensures f.weight <= 0.0 ==> normalizationFactor == old(normalizationFactor)
      ensures f.weight > 0.0 ==> normalizationFactor == old(normalizationFactor) + f.weight
    {
      features := features + [f];
      if f.weight > 0.0 {
        normalizationFactor := normalizationFactor + f.weight;
      }
      assert features[..|features| - 1] == old(features);
    }

    method Rank(query: string)
      requires Weighted() && normalizationFactor > 0.0
      modifies this`suggestions, this`subscribers
      ensures suggestions == StableSort(Rescored(old(suggestions), features, query))
      ensures forall r :: r in suggestions ==>
        exists v :: WeighsTo(features, query, r.suggestion, v)
                    && r.confidence == (if v > 0.0 then v else 0.0) / normalizationFactor
      ensures Displayed(subscribers, suggestions) && SameWindows(old(subscribers), subscribers)
    {
      for i := 0 to |suggestions|
        invariant |suggestions| == |old(suggestions)|
        invariant subscribers == old(subscribers) && suggestions[i..] == old(suggestions)[i..]
        invariant forall k :: 0 <= k < i ==> suggestions[k] == Rescored(old(suggestions), features, query)[k]
      {
        var p := suggestions[i].suggestion;
        assert p == old(suggestions)[i].suggestion by { assert suggestions[i..][0] == old(suggestions)[i..][0]; }
        var confidence := 0.0;
        for j := 0 to |features|
          invariant confidence == Sum(features[..j], query, p)
        {
          assert features[..j + 1][..j] == features[..j];
          confidence := confidence + features[j].weight * features[j].score(query, p);
        }
        assert features[..|features|] == features;
        ghost var before := suggestions;
        confidence := if confidence > 0.0 then confidence else 0.0;
        suggestions := suggestions[i := Ranked(p, confidence / normalizationFactor)];
        assert suggestions[i] == Rescored(old(suggestions), features, query)[i];
        assert suggestions[i + 1..] == before[i..][1..];
      }
      assert suggestions == Rescored(old(suggestions), features, query);
      ghost var scored := suggestions;
      suggestions := StableSort(suggestions);
      SortMembers(scored);
      forall r | r in suggestions
        ensures exists v :: WeighsTo(features, query, r.suggestion, v)
                            && r.confidence == (if v > 0.0 then v else 0.0) / normalizationFactor
      {
        WeighsSum(features, query, r.suggestion);
      }
      DispatchInvalidate();
    }

    method AddSuggestion(p: Prototype)
      modifies this`suggestions
      ensures suggestions == old(suggestions) + [Ranked(p, 0.0)]
    {
      suggestions := suggestions + [Ranked(p, 0.0)];
    }

    /** Takes out every entry of the key and says whether there was one. */
    method RemoveProposal(key: Key) returns (removed: bool)
      modifies this`suggestions
      ensures suggestions == Without(old(suggestions), key)
      ensures removed <==> key in Keys(old(suggestions))
    {
      var kept: seq<Ranked> := [];
      for i := 0 to |suggestions|
        invariant suggestions == old(suggestions) && kept == Without(suggestions[..i], key)
      {
        assert suggestions[..i + 1][..i] == suggestions[..i];
        if suggestions[i].suggestion.key != key {
          kept := kept + [suggestions[i]];
        }
      }
      assert suggestions[..|suggestions|] == suggestions;
      WithoutMembers(suggestions, key);
      removed := |kept| < |suggestions|;
      suggestions := kept;
    }

    method RemoveAllSuggestions()
      modifies this`suggestions, this`subscribers
      ensures suggestions == []
      ensures Displayed(subscribers, suggestions) && SameWindows(old(subscribers), subscribers)
    {
      suggestions := [];
      DispatchInvalidate();
    }

    method GetSuggestion(uuid: string) returns (r: seq<Ranked>)
      ensures r == FirstWith(suggestions, uuid)
    {
      for i := 0 to |suggestions|
        invariant FirstWith(suggestions, uuid) == FirstWith(suggestions[i..], uuid)
      {
        assert suggestions[i..][1..] == suggestions[i + 1..];
        if suggestions[i].suggestion.uuid == uuid {
          return [suggestions[i]];
        }
      }
      return [];
    }

    /** Adds the window to what a listener displays. */
    method OnSubscribe(s: Subscriber) returns (r: Subscriber)
      ensures r == Subscriber(s.count, s.shown + Window(suggestions, s.count))
    {
      var window: seq<Ranked> := [];
      var i := 0;
      while i < s.count && i < |suggestions|
        invariant i <= s.count && i <= |suggestions| && window == suggestions[..i]
      {
        window := window + [suggestions[i]];
        i := i + 1;
      }
      r := Subscriber(s.count, s.shown + window);
    }

    /** Every listener clears its display and is sent its window again. */
    method DispatchInvalidate()
      modifies this`subscribers
      ensures Displayed(subscribers, suggestions) && SameWindows(old(subscribers), subscribers)
    {
      for i := 0 to |subscribers|
        invariant SameWindows(old(subscribers), subscribers)
        invariant forall k :: 0 <= k < i ==> subscribers[k].shown == Window(suggestions, subscribers[k].count)
      {
        var s := OnSubscribe(Subscriber(subscribers[i].count, []));
        assert [] + Window(suggestions, s.count) == Window(suggestions, s.count);
        subscribers := subscribers[i := s];
      }
    }

    method AddSubscriber(count: nat)
      modifies this`subscribers
      ensures subscribers == old(subscribers) + [Subscriber(count, Window(suggestions, count))]
    {
      var s := OnSubscribe(Subscriber(count, []));
      assert [] + Window(suggestions, count) == Window(suggestions, count);
      subscribers := subscribers + [s];
    }

    method RemoveAllSubscribers()
      modifies this`subscribers
      ensures subscribers == []
    {
      subscribers := [];
    }
  }
}
