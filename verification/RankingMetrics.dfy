/**
 `rank_metrics` and `stage_metrics` (scripts/experiments/hindsight_pgroonga.py) over
 `real`, for any positive, non-increasing rank discount D; D(i) stands for 1/log2(i+2).
 */
module RankingMetrics {

  type Doc(==, !new) = nat

  /** One entry of the relevance dictionary. */
  datatype Judged = Judged(doc: Doc, grade: nat)

  datatype Metrics = Metrics(recall: real, mrr: real, ndcg: real) | Unjudged(falseInjection: bool)

  ghost predicate Discount(D: nat -> real) {
    (forall i: nat :: D(i) > 0.0) && (forall i: nat, j: nat :: i <= j ==> D(j) <= D(i))
  }

  /** The keys of a dictionary differ. */
  predicate Dictionary(rel: seq<Judged>) {
    forall i, j :: 0 <= i < j < |rel| ==> rel[i].doc != rel[j].doc
  }

  /** `relevance.get(d, 0)` */
  function Grade(rel: seq<Judged>, d: Doc): nat {
    if rel == [] then 0 else if rel[0].doc == d then rel[0].grade else Grade(rel[1..], d)
  }

  function Relevant(rel: seq<Judged>): set<Doc> {
    set e | e in rel && e.grade > 0 :: e.doc
  }

  function Gain(grade: nat): nat {
    if grade == 0 then 0 else 2 * Gain(grade - 1) + 1     // 2 ** grade - 1
  }

  /** `n * d`, which `TimesIsProduct` shows; the proofs need only that it adds. */
  function Times(n: nat, d: real): real { if n == 0 then 0.0 else Times(n - 1, d) + d }

  /** The sum of the gains, each under its rank's discount. */
  function Dcg(gains: seq<nat>, D: nat -> real): real {
    if gains == [] then 0.0
    else Dcg(gains[..|gains| - 1], D) + Times(gains[|gains| - 1], D(|gains| - 1))
  }

  function Insert(g: nat, sorted: seq<nat>): seq<nat> {
    if sorted == [] || g >= sorted[0] then [g] + sorted else [sorted[0]] + Insert(g, sorted[1..])
  }

  /** The grades, highest first. */
  function Sorted(rel: seq<Judged>): seq<nat> {
    if rel == [] then [] else Insert(rel[0].grade, Sorted(rel[1..]))
  }

  function Cut<T>(s: seq<T>, k: nat): seq<T> { if |s| <= k then s else s[..k] }

  function Gains(grades: seq<nat>): seq<nat> { seq(|grades|, i requires 0 <= i < |grades| => Gain(grades[i])) }

  function Ideal(rel: seq<Judged>, k: nat, D: nat -> real): real { Dcg(Gains(Cut(Sorted(rel), k)), D) }

  // ------------------------------------------------------ the two functions

  /** `list(dict.fromkeys(ranked))` */
  function Unique(docs: seq<Doc>): seq<Doc> {
    if docs == [] then []
    else
      var before := Unique(docs[..|docs| - 1]);
      if docs[|docs| - 1] in before then before else before + [docs[|docs| - 1]]
  }

  function GradesOf(docs: seq<Doc>, rel: seq<Judged>): seq<nat> {
    seq(|docs|, i requires 0 <= i < |docs| => Grade(rel, docs[i]))
  }

  /** The reciprocal rank of the first relevant document, `rank` counted from 1. */
  function FirstHit(docs: seq<Doc>, relevant: set<Doc>, rank: nat): real
    requires rank >= 1
  {
    if docs == [] then 0.0 else if docs[0] in relevant then 1.0 / rank as real else FirstHit(docs[1..], relevant, rank + 1)
  }

  function Members(docs: seq<Doc>): set<Doc> { set d | d in docs }

  function RankMetrics(ranked: seq<Doc>, rel: seq<Judged>, k: nat, D: nat -> real): Metrics
    requires Relevant(rel) != {} ==> Ideal(rel, k, D) != 0.0
  {
    var docs := Cut(Unique(ranked), k);
    if Relevant(rel) == {} then Unjudged(docs != [])
    else Metrics(|Members(docs) * Relevant(rel)| as real / |Relevant(rel)| as real,
                 FirstHit(docs, Relevant(rel), 1),
                 Dcg(Gains(GradesOf(docs, rel)), D) / Ideal(rel, k, D))
  }

  /** `max(relevance[d] for d in novel)` */
  function Best(rel: seq<Judged>, novel: set<Doc>): nat {
    if rel == [] then 0
    else
      var rest := Best(rel[1..], novel);
      if rel[0].doc in novel && rel[0].grade > rest then rel[0].grade else rest
  }

  /** The relevant documents of some results. */
  function Found(items: seq<set<Doc>>, rel: seq<Judged>): set<Doc> {
    if items == [] then {} else Found(items[..|items| - 1], rel) + items[|items| - 1] * Relevant(rel)
  }

  function Novel(before: seq<set<Doc>>, item: set<Doc>, rel: seq<Judged>): set<Doc> {
    item * Relevant(rel) - Found(before, rel)
  }

  function NovelGrade(before: seq<set<Doc>>, item: set<Doc>, rel: seq<Judged>): nat {
    if Novel(before, item, rel) == {} then 0 else Best(rel, Novel(before, item, rel))
  }

  /** The grade each result adds to the documents found before it. */
  function NovelGrades(items: seq<set<Doc>>, rel: seq<Judged>): (grades: seq<nat>)
    ensures |grades| == |items|
  {
    if items == [] then []
    else
      var before := items[..|items| - 1];
      NovelGrades(before, rel) + [NovelGrade(before, items[|items| - 1], rel)]
  }

  /** The reciprocal rank of the first result with a relevant document. */
  function FirstNovel(items: seq<set<Doc>>, relevant: set<Doc>, rank: nat): real
    requires rank >= 1
  {
    if items == [] then 0.0
    else if items[0] * relevant != {} then 1.0 / rank as real else FirstNovel(items[1..], relevant, rank + 1)
  }

  // ------------------------------------------------------- the top-m bound

  predicate Descending(s: seq<nat>) { forall i, j :: 0 <= i < j < |s| ==> s[i] >= s[j] }

  function GainSum(grades: seq<nat>): nat {
    if grades == [] then 0 else Gain(grades[0]) + GainSum(grades[1..])
  }

  lemma {:induction false} GainGrows(a: nat, b: nat)
    requires a <= b
    ensures Gain(a) <= Gain(b)
    decreases b
  {
    if a > 0 {
      GainGrows(a - 1, b - 1);
    }
  }

  function Values(rel: seq<Judged>): seq<nat> { seq(|rel|, i requires 0 <= i < |rel| => rel[i].grade) }

  lemma {:induction false} Prepend(h: nat, t: seq<nat>)
    requires Descending(t) && (t == [] || h >= t[0])
    ensures Descending([h] + t)
  {
  }

  lemma {:induction false} InsertKeeps(g: nat, s: seq<nat>)
    requires Descending(s)
    ensures Descending(Insert(g, s)) && multiset(Insert(g, s)) == multiset(s) + multiset{g}
    ensures Insert(g, s)[0] == if s == [] || g >= s[0] then g else s[0]
  {
    if s == [] || g >= s[0] {
      Prepend(g, s);
    } else {
      InsertKeeps(g, s[1..]);
      Prepend(s[0], Insert(g, s[1..]));
      assert s == [s[0]] + s[1..];
    }
  }

  lemma {:induction false} SortedKeeps(rel: seq<Judged>)
    ensures Descending(Sorted(rel)) && multiset(Sorted(rel)) == multiset(Values(rel))
  {
    if rel != [] {
      SortedKeeps(rel[1..]);
      InsertKeeps(rel[0].grade, Sorted(rel[1..]));
      assert Values(rel) == [rel[0].grade] + Values(rel[1..]);
    }
  }

  lemma {:induction false} GainSumWithout(x: seq<nat>, p: nat)
    requires p < |x|
    ensures GainSum(x) == Gain(x[p]) + GainSum(x[..p] + x[p + 1..])
  {
    if p == 0 {
      assert x[..0] + x[1..] == x[1..];
    } else {
      GainSumWithout(x[1..], p - 1);
      assert x[1..][..p - 1] + x[1..][p..] == (x[..p] + x[p + 1..])[1..];
    }
  }

  /** Taking one grade out of the choice, and the highest out of all. */
  lemma {:induction false} OneLess(x: seq<nat>, s: seq<nat>, p: nat)
    requires multiset(x) <= multiset(s) && p < |x| && s != [] && (x[p] == s[0] || s[0] !in x)
    ensures multiset(x[..p] + x[p + 1..]) <= multiset(s[1..])
  {
    assert x == x[..p] + [x[p]] + x[p + 1..];
    assert multiset(x) - multiset{x[p]} == multiset(x[..p] + x[p + 1..]);
    assert s == [s[0]] + s[1..];
  }

  /** No choice of m grades gains more than the m highest. */
  lemma {:induction false} TopIsBest(x: seq<nat>, s: seq<nat>)
    requires Descending(s) && multiset(x) <= multiset(s)
    ensures |x| <= |s| && GainSum(x) <= GainSum(s[..|x|])
    decreases |s|
  {
    if x != [] {
      var p := if s != [] && s[0] in x then Position(x, s[0]) else 0;
      assert x[p] in multiset(x) && x[p] in s;
      OneLess(x, s, p);
      TopIsBest(x[..p] + x[p + 1..], s[1..]);
      GainSumWithout(x, p);
      GainGrows(x[p], s[0]);
      assert s[..|x|][1..] == s[1..][..|x| - 1];
    }
  }

  function Position(x: seq<nat>, v: nat): (p: nat)
    requires v in x
    ensures p < |x| && x[p] == v
  {
    if x[0] == v then 0 else 1 + Position(x[1..], v)
  }

  // ---------------------------------------------- documents chosen at most once

  predicate NoRepeats(docs: seq<Doc>) { forall i, j :: 0 <= i < j < |docs| ==> docs[i] != docs[j] }

  lemma {:induction false} GradeAt(rel: seq<Judged>, p: nat)
    requires Dictionary(rel) && p < |rel|
    ensures Grade(rel, rel[p].doc) == rel[p].grade
  {
    if p > 0 {
      assert rel[1..][p - 1] == rel[p];
      GradeAt(rel[1..], p - 1);
    }
  }

  function Without(rel: seq<Judged>, p: nat): seq<Judged>
    requires p < |rel|
  {
    rel[..p] + rel[p + 1..]
  }

  lemma {:induction false} GradeWithout(rel: seq<Judged>, p: nat, d: Doc)
    requires Dictionary(rel) && p < |rel| && d != rel[p].doc
    ensures Grade(Without(rel, p), d) == Grade(rel, d)
  {
    if p == 0 {
      assert Without(rel, 0) == rel[1..];
    } else {
      GradeWithout(rel[1..], p - 1, d);
      assert Without(rel, p)[0] == rel[0] && Without(rel, p)[1..] == Without(rel[1..], p - 1);
    }
  }

  lemma {:induction false} ValuesWithout(rel: seq<Judged>, p: nat)
    requires p < |rel|
    ensures multiset(Values(rel)) == multiset(Values(Without(rel, p))) + multiset{rel[p].grade}
  {
    var v := Values(rel);
    assert v == v[..p] + [v[p]] + v[p + 1..];
    assert Values(Without(rel, p)) == v[..p] + v[p + 1..];
  }

  lemma {:induction false} RelevantAt(rel: seq<Judged>, d: Doc) returns (p: nat)
    requires d in Relevant(rel)
    ensures p < |rel| && rel[p].doc == d && rel[p].grade > 0
  {
    var e :| e in rel && e.grade > 0 && e.doc == d;
    p :| 0 <= p < |rel| && rel[p] == e;
  }

  /** Grades of different relevant documents are grades of different dictionary entries. */
  lemma {:induction false} ChoiceIsSubset(docs: seq<Doc>, rel: seq<Judged>)
    requires Dictionary(rel) && NoRepeats(docs) && forall d <- docs :: d in Relevant(rel)
    ensures multiset(GradesOf(docs, rel)) <= multiset(Values(rel))
    decreases |docs|
  {
    if docs != [] {
      assert docs[0] in docs;
      var p := RelevantAt(rel, docs[0]);
      var rest := Without(rel, p);
      GradeAt(rel, p);
      forall i | 0 < i < |docs|
        ensures Grade(rest, docs[i]) == Grade(rel, docs[i]) && docs[i] in Relevant(rest)
      {
        GradeWithout(rel, p, docs[i]);
        assert docs[i] in docs;
      }
      ChoiceIsSubset(docs[1..], rest);
      ValuesWithout(rel, p);
      assert GradesOf(docs, rel) == [rel[p].grade] + GradesOf(docs[1..], rest);
    }
  }

  lemma {:induction false} LongerGainsMore(s: seq<nat>, a: nat, b: nat)
    requires a <= b
    ensures GainSum(Cut(s, a)) <= GainSum(Cut(s, b))
    decreases b
  {
    if s != [] && a > 0 {
      LongerGainsMore(s[1..], a - 1, b - 1);
      assert Cut(s, a) == [s[0]] + Cut(s[1..], a - 1) && Cut(s, b) == [s[0]] + Cut(s[1..], b - 1);
    }
  }

  /** Different documents, at most j of them, gain no more than the j highest grades. */
  lemma {:induction false} ChoiceGainsAtMost(docs: seq<Doc>, rel: seq<Judged>, j: nat)
    requires Dictionary(rel) && NoRepeats(docs) && (forall d <- docs :: d in Relevant(rel)) && |docs| <= j
    ensures GainSum(GradesOf(docs, rel)) <= GainSum(Cut(Sorted(rel), j))
  {
    ChoiceIsSubset(docs, rel);
    SortedKeeps(rel);
    TopIsBest(GradesOf(docs, rel), Sorted(rel));
    LongerGainsMore(Sorted(rel), |docs|, j);
    assert Cut(Sorted(rel), |docs|) == Sorted(rel)[..|docs|];
  }

  // ------------------------------------------- from prefix sums to discounts

  function At(g: seq<nat>, i: nat): nat { if i < |g| then g[i] else 0 }

  function PrefixSum(g: seq<nat>, n: nat): nat {
    if n == 0 then 0 else PrefixSum(g, n - 1) + At(g, n - 1)
  }

  function Discounted(g: seq<nat>, n: nat, D: nat -> real): real {
    if n == 0 then 0.0 else Discounted(g, n - 1, D) + Times(At(g, n - 1), D(n - 1))
  }

  lemma {:induction false} DiscountedIsDcg(g: seq<nat>, n: nat, D: nat -> real)
    requires |g| <= n
    ensures Discounted(g, n, D) == Dcg(g, D)
    decreases n
  {
    if n > |g| {
      DiscountedIsDcg(g, n - 1, D);
    } else if n > 0 {
      DiscountedSame(g, g[..n - 1], n - 1, D);
      DiscountedIsDcg(g[..n - 1], n - 1, D);
    }
  }

  lemma {:induction false} DiscountedSame(g: seq<nat>, h: seq<nat>, n: nat, D: nat -> real)
    requires n <= |g| && n <= |h| && g[..n] == h[..n]
    ensures Discounted(g, n, D) == Discounted(h, n, D)
  {
    if n > 0 {
      assert g[n - 1] == g[..n][n - 1] && h[n - 1] == h[..n][n - 1];
      assert g[..n - 1] == g[..n][..n - 1] && h[..n - 1] == h[..n][..n - 1];
      DiscountedSame(g, h, n - 1, D);
    }
  }

  lemma {:induction false} TimesIsProduct(n: nat, d: real)
    ensures Times(n, d) == n as real * d
  {
    if n > 0 {
      TimesIsProduct(n - 1, d);
      assert n as real * d == (n - 1) as real * d + d;
    }
  }

  lemma {:induction false} TimesAdds(m: nat, n: nat, d: real)
    ensures Times(m + n, d) == Times(m, d) + Times(n, d)
    decreases n
  {
    if n > 0 {
      TimesAdds(m, n - 1, d);
    }
  }

  lemma {:induction false} TimesGrows(n: nat, low: real, high: real)
    requires low <= high
    ensures Times(n, low) <= Times(n, high)
  {
    if n > 0 {
      TimesGrows(n - 1, low, high);
    }
  }

  lemma {:induction false} TimesIsPositive(n: nat, d: real)
    requires d > 0.0
    ensures Times(n, d) >= 0.0 && (n > 0 ==> Times(n, d) > 0.0)
  {
    if n > 0 {
      TimesIsPositive(n - 1, d);
    }
  }

  predicate Behind(x: seq<nat>, y: seq<nat>, n: nat) {
    forall j :: 0 <= j <= n ==> PrefixSum(x, j) <= PrefixSum(y, j)
  }

  function Lead(x: seq<nat>, y: seq<nat>, n: nat): nat
    requires PrefixSum(x, n) <= PrefixSum(y, n)
  {
    PrefixSum(y, n) - PrefixSum(x, n)
  }

  /** One rank more: the lead of y over x, under this rank's discount. */
  lemma {:induction false} LeadStep(x: seq<nat>, y: seq<nat>, n: nat, d: real)
    requires PrefixSum(x, n) <= PrefixSum(y, n) && PrefixSum(x, n + 1) <= PrefixSum(y, n + 1)
    ensures Times(Lead(x, y, n), d) + Times(At(y, n), d) == Times(Lead(x, y, n + 1), d) + Times(At(x, n), d)
  {
    TimesAdds(Lead(x, y, n), At(y, n), d);
    TimesAdds(Lead(x, y, n + 1), At(x, n), d);
    assert Lead(x, y, n) + At(y, n) == Lead(x, y, n + 1) + At(x, n);
  }

  /** Abel summation: what is behind in every prefix sum is behind under a falling discount. */
  lemma {:induction false} Dominated(x: seq<nat>, y: seq<nat>, n: nat, D: nat -> real)
    requires Discount(D) && n > 0 && Behind(x, y, n)
    ensures Discounted(y, n, D) - Discounted(x, n, D) >= Times(Lead(x, y, n), D(n - 1))
  {
    assert PrefixSum(x, n - 1) <= PrefixSum(y, n - 1) && PrefixSum(x, n) <= PrefixSum(y, n);
    LeadStep(x, y, n - 1, D(n - 1));
    if n > 1 {
      Dominated(x, y, n - 1, D);
      TimesGrows(Lead(x, y, n - 1), D(n - 1), D(n - 2));
    }
  }

  lemma {:induction false} PrefixIsGainSum(grades: seq<nat>, j: nat)
    ensures PrefixSum(Gains(grades), j) == GainSum(Cut(grades, j))
    decreases j
  {
    if j > 0 {
      PrefixIsGainSum(grades, j - 1);
      if j <= |grades| {
        GainSumWithout(grades[..j], j - 1);
        assert grades[..j][..j - 1] + grades[..j][j..] == grades[..j - 1];
        assert Cut(grades, j) == grades[..j] && Cut(grades, j - 1) == grades[..j - 1];
      }
    }
  }

  lemma {:induction false} DcgIsPositive(g: seq<nat>, D: nat -> real)
    requires Discount(D)
    ensures Dcg(g, D) >= 0.0
    ensures g != [] && g[0] > 0 ==> Dcg(g, D) > 0.0
  {
    if g != [] {
      DcgIsPositive(g[..|g| - 1], D);
      assert D(|g| - 1) > 0.0;
      TimesIsPositive(g[|g| - 1], D(|g| - 1));
    }
  }

  /** Up to k grades that no prefix lets beat the highest ones make at most the ideal. */
  lemma {:induction false} AtMostIdeal(grades: seq<nat>, rel: seq<Judged>, k: nat, D: nat -> real)
    requires Discount(D) && |grades| <= k && k >= 1
    requires forall j :: 0 <= j <= k ==> GainSum(Cut(grades, j)) <= GainSum(Cut(Sorted(rel), j))
    ensures 0.0 <= Dcg(Gains(grades), D) <= Ideal(rel, k, D)
  {
    var x, y := Gains(grades), Gains(Cut(Sorted(rel), k));
    forall j | 0 <= j <= k
      ensures PrefixSum(x, j) <= PrefixSum(y, j)
    {
      PrefixIsGainSum(grades, j);
      PrefixIsGainSum(Cut(Sorted(rel), k), j);
      assert Cut(Cut(Sorted(rel), k), j) == Cut(Sorted(rel), j);
    }
    Dominated(x, y, k, D);
    assert D(k - 1) > 0.0;
    TimesIsPositive(Lead(x, y, k), D(k - 1));
    DiscountedIsDcg(x, k, D);
    DiscountedIsDcg(y, k, D);
    DcgIsPositive(x, D);
  }

  // ------------------------------------------------------ one choice per rank

  lemma {:induction false} UnjudgedGainsNothing(rel: seq<Judged>, d: Doc)
    requires d !in Relevant(rel)
    ensures Grade(rel, d) == 0
  {
    if rel != [] {
      assert forall e :: e in rel[1..] ==> e in rel;
      assert rel[0] in rel;
      UnjudgedGainsNothing(rel[1..], d);
    }
  }

  /** The relevant ones among the ranked documents. */
  function Hits(docs: seq<Doc>, rel: seq<Judged>): seq<Doc> {
    if docs == [] then [] else (if docs[0] in Relevant(rel) then [docs[0]] else []) + Hits(docs[1..], rel)
  }

  lemma {:induction false} HitsGainAll(docs: seq<Doc>, rel: seq<Judged>)
    requires NoRepeats(docs)
    ensures NoRepeats(Hits(docs, rel)) && |Hits(docs, rel)| <= |docs|
    ensures forall d <- Hits(docs, rel) :: d in Relevant(rel) && d in docs
    ensures GainSum(GradesOf(docs, rel)) == GainSum(GradesOf(Hits(docs, rel), rel))
  {
    if docs != [] {
      HitsGainAll(docs[1..], rel);
      var rest := Hits(docs[1..], rel);
      assert docs[0] !in docs[1..];
      assert GradesOf(docs, rel)[1..] == GradesOf(docs[1..], rel);
      if docs[0] in Relevant(rel) {
        assert GradesOf([docs[0]] + rest, rel) == [Grade(rel, docs[0])] + GradesOf(rest, rel);
      } else {
        UnjudgedGainsNothing(rel, docs[0]);
        assert Hits(docs, rel) == rest;
      }
    }
  }

  lemma {:induction false} BestCovers(rel: seq<Judged>, novel: set<Doc>, q: nat)
    requires q < |rel| && rel[q].doc in novel
    ensures Best(rel, novel) >= rel[q].grade
  {
    if q > 0 {
      BestCovers(rel[1..], novel, q - 1);
    }
  }

  lemma {:induction false} BestAt(rel: seq<Judged>, novel: set<Doc>) returns (p: nat)
    requires Best(rel, novel) > 0
    ensures p < |rel| && rel[p].doc in novel && rel[p].grade == Best(rel, novel)
  {
    if rel[0].doc in novel && rel[0].grade > Best(rel[1..], novel) {
      p := 0;
    } else {
      p := BestAt(rel[1..], novel);
      p := p + 1;
    }
  }

  lemma {:induction false} BestIsSomeones(rel: seq<Judged>, novel: set<Doc>) returns (d: Doc)
    requires Dictionary(rel) && novel != {} && novel <= Relevant(rel)
    ensures d in novel && Grade(rel, d) == Best(rel, novel)
  {
    d :| d in novel;
    var q := RelevantAt(rel, d);
    BestCovers(rel, novel, q);
    var p := BestAt(rel, novel);
    GradeAt(rel, p);
    d := rel[p].doc;
  }

  lemma {:induction false} GainSumAppends(x: seq<nat>, g: nat)
    ensures GainSum(x + [g]) == GainSum(x) + Gain(g)
  {
    GainSumWithout(x + [g], |x|);
    assert (x + [g])[..|x|] + (x + [g])[|x| + 1..] == x;
  }

  /** Every novel rank is paid for by a document of its own. */
  lemma {:induction false} Representatives(items: seq<set<Doc>>, rel: seq<Judged>) returns (docs: seq<Doc>)
    requires Dictionary(rel)
    ensures NoRepeats(docs) && |docs| <= |items|
    ensures forall d <- docs :: d in Relevant(rel) && d in Found(items, rel)
    ensures GainSum(NovelGrades(items, rel)) == GainSum(GradesOf(docs, rel))
    decreases |items|
  {
    docs := [];
    if items != [] {
      var before, item := items[..|items| - 1], items[|items| - 1];
      docs := Representatives(before, rel);
      GainSumAppends(NovelGrades(before, rel), NovelGrade(before, item, rel));
      if Novel(before, item, rel) != {} {
        var d := BestIsSomeones(rel, Novel(before, item, rel));
        GainSumAppends(GradesOf(docs, rel), Grade(rel, d));
        assert GradesOf(docs + [d], rel) == GradesOf(docs, rel) + [Grade(rel, d)];
        docs := docs + [d];
      }
    }
  }

  // ------------------------------------------------------------ the results

  lemma {:induction false} UniqueIsDistinct(docs: seq<Doc>)
    ensures NoRepeats(Unique(docs))
  {
    if docs != [] {
      UniqueIsDistinct(docs[..|docs| - 1]);
    }
  }

  lemma {:induction false} RankedAtMostIdeal(docs: seq<Doc>, rel: seq<Judged>, k: nat, D: nat -> real)
    requires Discount(D) && Dictionary(rel) && NoRepeats(docs) && |docs| <= k && k >= 1
    ensures 0.0 <= Dcg(Gains(GradesOf(docs, rel)), D) <= Ideal(rel, k, D)
  {
    forall j | 0 <= j <= k
      ensures GainSum(Cut(GradesOf(docs, rel), j)) <= GainSum(Cut(Sorted(rel), j))
    {
      var first := Cut(docs, j);
      assert Cut(GradesOf(docs, rel), j) == GradesOf(first, rel);
      HitsGainAll(first, rel);
      ChoiceGainsAtMost(Hits(first, rel), rel, j);
    }
    AtMostIdeal(GradesOf(docs, rel), rel, k, D);
  }

  lemma {:induction false} NovelPrefix(items: seq<set<Doc>>, rel: seq<Judged>, j: nat)
    requires j <= |items|
    ensures NovelGrades(items, rel)[..j] == NovelGrades(items[..j], rel)
    decreases |items|
  {
    if j < |items| {
      NovelPrefix(items[..|items| - 1], rel, j);
      assert items[..|items| - 1][..j] == items[..j];
    } else {
      assert items[..j] == items;
    }
  }

  lemma {:induction false} StagedAtMostIdeal(items: seq<set<Doc>>, rel: seq<Judged>, k: nat, D: nat -> real)
    requires Discount(D) && Dictionary(rel) && |items| <= k && k >= 1
    ensures 0.0 <= Dcg(Gains(NovelGrades(items, rel)), D) <= Ideal(rel, k, D)
  {
    forall j | 0 <= j <= k
      ensures GainSum(Cut(NovelGrades(items, rel), j)) <= GainSum(Cut(Sorted(rel), j))
    {
      NovelPrefix(items, rel, |Cut(items, j)|);
      assert Cut(NovelGrades(items, rel), j) == NovelGrades(Cut(items, j), rel);
      var docs := Representatives(Cut(items, j), rel);
      ChoiceGainsAtMost(docs, rel, j);
    }
    AtMostIdeal(NovelGrades(items, rel), rel, k, D);
  }

  lemma {:induction false} IdealIsPositive(rel: seq<Judged>, k: nat, D: nat -> real)
    requires Discount(D) && Relevant(rel) != {} && k >= 1
    ensures Ideal(rel, k, D) > 0.0
  {
    SortedKeeps(rel);
    var d :| d in Relevant(rel);
    var p := RelevantAt(rel, d);
    assert Values(rel)[p] in multiset(Values(rel)) && Values(rel)[p] in Sorted(rel);
    GainGrows(1, Sorted(rel)[0]);
    DcgIsPositive(Gains(Cut(Sorted(rel), k)), D);
  }

  lemma {:induction false} Ratio(part: real, whole: real)
    requires 0.0 <= part <= whole && whole > 0.0
    ensures 0.0 <= part / whole <= 1.0
  {
  }

  /** `rank_metrics`: nDCG lies in [0, 1] for every ranking, repeated documents and all. */
  lemma {:induction false} RankNdcgInUnit(ranked: seq<Doc>, rel: seq<Judged>, k: nat, D: nat -> real)
    requires Discount(D) && Dictionary(rel) && k >= 1 && Relevant(rel) != {}
    ensures Ideal(rel, k, D) > 0.0
    ensures 0.0 <= RankMetrics(ranked, rel, k, D).ndcg <= 1.0
  {
    IdealIsPositive(rel, k, D);
    UniqueIsDistinct(ranked);
    RankedAtMostIdeal(Cut(Unique(ranked), k), rel, k, D);
    Ratio(Dcg(Gains(GradesOf(Cut(Unique(ranked), k), rel)), D), Ideal(rel, k, D));
  }

  // ---------------------------------------------------- the imperative scan

  function StageSpec(items: seq<set<Doc>>, rel: seq<Judged>, k: nat, D: nat -> real): Metrics
    requires Relevant(rel) != {} ==> Ideal(rel, k, D) != 0.0
  {
    var first := Cut(items, k);
    if Relevant(rel) == {} then Unjudged(first != [])
    else Metrics(|Found(first, rel)| as real / |Relevant(rel)| as real,
                 FirstNovel(first, Relevant(rel), 1),
                 Dcg(Gains(NovelGrades(first, rel)), D) / Ideal(rel, k, D))
  }

  lemma {:induction false} FirstAppends(items: seq<set<Doc>>, item: set<Doc>, relevant: set<Doc>, rank: nat)
    requires rank >= 1
    ensures var first := FirstNovel(items, relevant, rank);
      FirstNovel(items + [item], relevant, rank)
      == if first != 0.0 then first else if item * relevant != {} then 1.0 / (rank + |items|) as real else 0.0
    decreases |items|
  {
    if items == [] {
      assert items + [item] == [item] && [item][1..] == [];
    } else if items[0] * relevant == {} {
      FirstAppends(items[1..], item, relevant, rank + 1);
      assert (items + [item])[1..] == items[1..] + [item];
    } else {
      assert 1.0 / rank as real > 0.0;
    }
  }

  /** `first` is zero until something is found. */
  lemma {:induction false} NothingFoundYet(items: seq<set<Doc>>, rel: seq<Judged>)
    ensures FirstNovel(items, Relevant(rel), 1) == 0.0 <==> Found(items, rel) == {}
    decreases |items|
  {
    if items != [] {
      var before, item := items[..|items| - 1], items[|items| - 1];
      NothingFoundYet(before, rel);
      FirstAppends(before, item, Relevant(rel), 1);
      assert items == before + [item];
      assert 1.0 / |items| as real > 0.0;
    }
  }

  /** One result more. */
  lemma {:induction false} OneItem(items: seq<set<Doc>>, item: set<Doc>, rel: seq<Judged>, D: nat -> real)
    ensures var (all, novel) := (items + [item], Novel(items, item, rel));
      && Found(all, rel) == Found(items, rel) + item * Relevant(rel)
      && Dcg(Gains(NovelGrades(all, rel)), D)
         == Dcg(Gains(NovelGrades(items, rel)), D) + Times(Gain(NovelGrade(items, item, rel)), D(|items|))
      && (FirstNovel(items, Relevant(rel), 1) == 0.0 ==> novel == item * Relevant(rel))
      && FirstNovel(all, Relevant(rel), 1)
         == if FirstNovel(items, Relevant(rel), 1) == 0.0 && novel != {} then 1.0 / (|items| + 1) as real
            else FirstNovel(items, Relevant(rel), 1)
  {
    assert (items + [item])[..|items|] == items;
    DcgAppends(NovelGrades(items, rel), NovelGrade(items, item, rel), D);
    NothingFoundYet(items, rel);
    FirstAppends(items, item, Relevant(rel), 1);
  }

  /** The loop of `stage_metrics` over the results that the cut left. */
  method Scan(results: seq<set<Doc>>, rel: seq<Judged>, D: nat -> real) returns (found: set<Doc>, first: real, dcg: real)
    ensures found == Found(results, rel)
    ensures first == FirstNovel(results, Relevant(rel), 1)
    ensures dcg == Dcg(Gains(NovelGrades(results, rel)), D)
  {
    found, first, dcg := {}, 0.0, 0.0;
    for i := 0 to |results|
      invariant found == Found(results[..i], rel)
      invariant first == FirstNovel(results[..i], Relevant(rel), 1)
      invariant dcg == Dcg(Gains(NovelGrades(results[..i], rel)), D)
    {
      OneItem(results[..i], results[i], rel, D);
      assert results[..i + 1] == results[..i] + [results[i]];
      var novel := results[i] * Relevant(rel) - found;
      if novel != {} {
        if first == 0.0 {
          first := 1.0 / (i + 1) as real;
        }
        dcg := dcg + Times(Gain(Best(rel, novel)), D(i));
      }
      found := found + results[i] * Relevant(rel);
    }
    assert results[..|results|] == results;
  }

  /** `stage_metrics`: nDCG lies in [0, 1] for every input. */
  method StageMetrics(items: seq<set<Doc>>, rel: seq<Judged>, k: nat, D: nat -> real) returns (m: Metrics)
    requires Discount(D) && Dictionary(rel) && k >= 1
    ensures Relevant(rel) != {} ==> Ideal(rel, k, D) > 0.0
    ensures m == StageSpec(items, rel, k, D)
    ensures Relevant(rel) != {} ==> 0.0 <= m.ndcg <= 1.0
  {
    var results := Cut(items, k);
    if Relevant(rel) == {} {
      return Unjudged(results != []);
    }
    var found, first, dcg := Scan(results, rel, D);
    IdealIsPositive(rel, k, D);
    StagedAtMostIdeal(results, rel, k, D);
    Ratio(dcg, Ideal(rel, k, D));
    m := Metrics(|found| as real / |Relevant(rel)| as real, first, dcg / Ideal(rel, k, D));
  }

  lemma {:induction false} DcgAppends(grades: seq<nat>, grade: nat, D: nat -> real)
    ensures Dcg(Gains(grades + [grade]), D) == Dcg(Gains(grades), D) + Times(Gain(grade), D(|grades|))
  {
    var g := Gains(grades + [grade]);
    assert g[..|grades|] == Gains(grades) && g[|grades|] == Gain(grade);
  }

  // ------------------------------------------------------------ agreement

  function Singles(docs: seq<Doc>): seq<set<Doc>> { seq(|docs|, i requires 0 <= i < |docs| => {docs[i]}) }

  lemma {:induction false} BestOfOne(rel: seq<Judged>, d: Doc)
    requires Dictionary(rel) && d in Relevant(rel)
    ensures Best(rel, {d}) == Grade(rel, d)
  {
    var d' := BestIsSomeones(rel, {d});
  }

  lemma {:induction false} OneSingle(docs: seq<Doc>, d: Doc, rel: seq<Judged>)
    requires Dictionary(rel) && d !in docs && Found(Singles(docs), rel) == Members(docs) * Relevant(rel)
    ensures NovelGrade(Singles(docs), {d}, rel) == Grade(rel, d)
  {
    if d in Relevant(rel) {
      BestOfOne(rel, d);
      assert Novel(Singles(docs), {d}, rel) == {d};
    } else {
      UnjudgedGainsNothing(rel, d);
      assert Novel(Singles(docs), {d}, rel) == {};
    }
  }

  lemma {:induction false} SinglesAgree(docs: seq<Doc>, rel: seq<Judged>)
    requires Dictionary(rel) && NoRepeats(docs)
    ensures NovelGrades(Singles(docs), rel) == GradesOf(docs, rel)
    ensures Found(Singles(docs), rel) == Members(docs) * Relevant(rel)
    decreases |docs|
  {
    if docs != [] {
      var init, last := docs[..|docs| - 1], docs[|docs| - 1];
      SinglesAgree(init, rel);
      assert Singles(docs)[..|docs| - 1] == Singles(init);
      OneSingle(init, last, rel);
      assert Members(docs) == Members(init) + {last} by {
        assert docs == init + [last];
      }
    }
  }

  lemma {:induction false} FirstHitsAgree(docs: seq<Doc>, relevant: set<Doc>, rank: nat)
    requires rank >= 1
    ensures FirstNovel(Singles(docs), relevant, rank) == FirstHit(docs, relevant, rank)
    decreases |docs|
  {
    if docs != [] {
      FirstHitsAgree(docs[1..], relevant, rank + 1);
      assert Singles(docs)[1..] == Singles(docs[1..]);
      assert {docs[0]} * relevant != {} <==> docs[0] in relevant by {
        if {docs[0]} * relevant != {} {
          var d :| d in {docs[0]} * relevant;
        } else {
          assert docs[0] !in {docs[0]} * relevant;
        }
      }
    }
  }

  lemma {:induction false} UniqueKeeps(docs: seq<Doc>)
    requires NoRepeats(docs)
    ensures Unique(docs) == docs
    decreases |docs|
  {
    if docs != [] {
      UniqueKeeps(docs[..|docs| - 1]);
      assert docs == docs[..|docs| - 1] + [docs[|docs| - 1]];
    }
  }

  /** On duplicate-free lists of single documents the two functions agree. */
  lemma {:induction false} MetricsAgree(docs: seq<Doc>, rel: seq<Judged>, k: nat, D: nat -> real)
    requires Discount(D) && Dictionary(rel) && k >= 1 && NoRepeats(docs)
    ensures Relevant(rel) != {} ==> Ideal(rel, k, D) != 0.0
    ensures StageSpec(Singles(docs), rel, k, D) == RankMetrics(docs, rel, k, D)
  {
    if Relevant(rel) != {} {
      IdealIsPositive(rel, k, D);
    }
    UniqueKeeps(docs);
    assert Cut(Singles(docs), k) == Singles(Cut(docs, k));
    SinglesAgree(Cut(docs, k), rel);
    FirstHitsAgree(Cut(docs, k), Relevant(rel), 1);
  }
}
