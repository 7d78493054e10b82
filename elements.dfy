/**
 * The element record every extractor emits (`id`, `type`, `content`,
 * `bbox`, `page`, `confidence`), the per-type tally kept in the result
 * metadata under `by_type`, the confidence sum and average, and the page
 * filter used before drawing.
 */
module Elements {

  import opened Geometry
  import opened Text

  /** One detected item.  `kind` is the Python `type` string; it is kept open
      (any string), since the tallies and colour tables accept any value. */
  datatype Element = Element(id: string, kind: string, content: string, box: BBox, page: int, confidence: real)

  /** The `type` field of each element, in order. */
  function Kinds(es: seq<Element>): (ks: seq<string>)
    ensures |ks| == |es|
    ensures forall i :: 0 <= i < |es| ==> ks[i] == es[i].kind
  {
    if es == [] then [] else Kinds(es[..|es| - 1]) + [es[|es| - 1].kind]
  }

  /** The dictionary `counts` after counting `types` one by one with
      `counts[t] = counts.get(t, 0) + 1`. */
  function Tally(types: seq<string>): map<string, nat> {
    if types == [] then map[]
    else
      var m0 := Tally(types[..|types| - 1]);
      var t := types[|types| - 1];
      m0[t := if t in m0 then m0[t] + 1 else 1]
  }

  /** The tally has one key per type that occurs, mapped to its number of
      occurrences. */
  lemma {:induction false} TallyCounts(types: seq<string>)
    ensures forall t :: t in Tally(types) <==> t in types
    ensures forall t :: t in Tally(types) ==> Tally(types)[t] == multiset(types)[t]
  {
    if types != [] {
      var p := types[..|types| - 1];
      var t := types[|types| - 1];
      assert types == p + [t];
      TallyCounts(p);
    }
  }

  /** The sum of `m[k]` over the keys `ks` (absent keys add nothing). */
  function SumOver(ks: seq<string>, m: map<string, nat>): nat {
    if ks == [] then 0 else SumOver(ks[..|ks| - 1], m) + (if ks[|ks| - 1] in m then m[ks[|ks| - 1]] else 0)
  }

  lemma {:induction false} SumOverOther(ks: seq<string>, m: map<string, nat>, k: string, v: nat)
    requires k !in ks
    ensures SumOver(ks, m[k := v]) == SumOver(ks, m)
  {
    if ks != [] {
      SumOverOther(ks[..|ks| - 1], m, k, v);
    }
  }

  lemma {:induction false} SumOverBump(ks: seq<string>, m: map<string, nat>, k: string)
    requires k in m
    requires multiset(ks)[k] == 1
    ensures SumOver(ks, m[k := m[k] + 1]) == SumOver(ks, m) + 1
  {
    var p := ks[..|ks| - 1];
    var last := ks[|ks| - 1];
    assert ks == p + [last];
    if last == k {
      assert multiset(p)[k] == 0;
      SumOverOther(p, m, k, m[k] + 1);
    } else {
      assert multiset(p)[k] == 1;
      SumOverBump(p, m, k);
    }
  }

  lemma DistinctOnce(s: seq<string>, k: string)
    requires forall i, j :: 0 <= i < j < |s| ==> s[i] != s[j]
    requires k in s
    ensures multiset(s)[k] == 1
  {
    var i :| 0 <= i < |s| && s[i] == k;
    assert s == s[..i] + [k] + s[i + 1..];
    assert k !in s[..i] && k !in s[i + 1..] by {
      forall j | 0 <= j < |s| && j != i ensures s[j] != k {}
    }
    assert multiset(s) == multiset(s[..i]) + multiset{k} + multiset(s[i + 1..]);
  }

  /** The per-type counts add up to the number of items counted, summing
      over the keys in their dictionary (first-occurrence) order. */
  lemma {:induction false} TallySum(types: seq<string>)
    ensures SumOver(Distinct(types), Tally(types)) == |types|
  {
    if types != [] {
      var p := types[..|types| - 1];
      var t := types[|types| - 1];
      TallySum(p);
      var d0 := Distinct(p);
      var m0 := Tally(p);
      TallyCounts(p);
      assert t in m0 <==> t in d0;
      if t in d0 {
        DistinctOnce(d0, t);
        SumOverBump(d0, m0, t);
      } else {
        assert (d0 + [t])[..|d0|] == d0;
        SumOverOther(d0, m0, t, 1);
      }
    }
  }

  /** `_count_by_type`: one pass over the elements that updates `counts`.
      The result has a key for each type present, each count is the number
      of elements of that type, and the counts sum to `len(elements)`. */
  method CountByType(elements: seq<Element>) returns (counts: map<string, nat>)
    ensures counts == Tally(Kinds(elements))
    ensures forall t :: t in counts <==> exists i :: 0 <= i < |elements| && elements[i].kind == t
    ensures forall t :: t in counts ==> counts[t] == multiset(Kinds(elements))[t]
    ensures SumOver(Distinct(Kinds(elements)), counts) == |elements|
  {
    counts := map[];
    var i := 0;
    while i < |elements|
      invariant 0 <= i <= |elements|
      invariant counts == Tally(Kinds(elements[..i]))
    {
      var t := elements[i].kind;
      assert elements[..i + 1][..i] == elements[..i];
      counts := counts[t := if t in counts then counts[t] + 1 else 1];
      i := i + 1;
    }
    assert elements[..i] == elements;
    TallyOfElements(elements);
  }

  lemma TallyOfElements(elements: seq<Element>)
    ensures forall t :: t in Tally(Kinds(elements)) <==> exists i :: 0 <= i < |elements| && elements[i].kind == t
    ensures forall t :: t in Tally(Kinds(elements)) ==> Tally(Kinds(elements))[t] == multiset(Kinds(elements))[t]
    ensures SumOver(Distinct(Kinds(elements)), Tally(Kinds(elements))) == |elements|
  {
    var ks := Kinds(elements);
    TallySum(ks);
    TallyCounts(ks);
    TallyKeys(elements);
  }

  lemma TallyKeys(elements: seq<Element>)
    ensures forall t :: t in Tally(Kinds(elements)) <==> exists i :: 0 <= i < |elements| && elements[i].kind == t
  {
    TallyCounts(Kinds(elements));
    KindsMembers(elements);
  }

  lemma KindsMembers(elements: seq<Element>)
    ensures forall t :: t in Kinds(elements) <==> exists i :: 0 <= i < |elements| && elements[i].kind == t
  {
    var ks := Kinds(elements);
    forall t | t in ks ensures exists i :: 0 <= i < |elements| && elements[i].kind == t {
      var i :| 0 <= i < |ks| && ks[i] == t;
      assert elements[i].kind == t;
    }
  }

  /** The sum of the confidences of the first `k` elements of `es`. */
  function ConfSumTo(es: seq<Element>, k: nat): real
    requires k <= |es|
  {
    if k == 0 then 0.0 else ConfSumTo(es, k - 1) + es[k - 1].confidence
  }

  /** The sum of the confidences of `es`. */
  function ConfSum(es: seq<Element>): real {
    ConfSumTo(es, |es|)
  }

  lemma {:induction false} ConfSumToPrefix(a: seq<Element>, b: seq<Element>, k: nat)
    requires k <= |a|
    ensures ConfSumTo(a + b, k) == ConfSumTo(a, k)
  {
    if k > 0 {
      ConfSumToPrefix(a, b, k - 1);
    }
  }

  lemma {:induction false} ConfSumToAppend(a: seq<Element>, b: seq<Element>, k: nat)
    requires k <= |b|
    ensures ConfSumTo(a + b, |a| + k) == ConfSumTo(a, |a|) + ConfSumTo(b, k)
  {
    if k == 0 {
      ConfSumToPrefix(a, b, |a|);
    } else {
      ConfSumToAppend(a, b, k - 1);
    }
  }

  lemma ConfSumAppend(a: seq<Element>, b: seq<Element>)
    ensures ConfSum(a + b) == ConfSum(a) + ConfSum(b)
  {
    ConfSumToAppend(a, b, |b|);
  }

  lemma ConfSumPush(es: seq<Element>, e: Element)
    ensures ConfSum(es + [e]) == ConfSum(es) + e.confidence
  {
    ConfSumToPrefix(es, [e], |es|);
  }

  /** The sum lies between `lo` and `hi` times the count when every
      confidence does. */
  lemma ConfSumBounds(es: seq<Element>, lo: real, hi: real)
    requires forall i :: 0 <= i < |es| ==> lo <= es[i].confidence <= hi
    ensures |es| as real * lo <= ConfSum(es) <= |es| as real * hi
  {
    ConfSumToBounds(es, |es|, lo, hi);
  }

  lemma {:induction false} ConfSumToBounds(es: seq<Element>, k: nat, lo: real, hi: real)
    requires k <= |es|
    requires forall i :: 0 <= i < |es| ==> lo <= es[i].confidence <= hi
    ensures k as real * lo <= ConfSumTo(es, k) <= k as real * hi
  {
    if k > 0 {
      ConfSumToBounds(es, k - 1, lo, hi);
    }
  }

  /** `sum(e["confidence"] for e in elements) / len(elements) if elements
      else default`: the mean confidence, or the extractor's own default
      for a document without elements. */
  function AverageConfidence(es: seq<Element>, default: real): real {
    if es == [] then default else ConfSum(es) / |es| as real
  }

  /** With no elements the average is the default; otherwise it lies within
      any bounds every confidence respects. */
  lemma AverageConfidenceBounds(es: seq<Element>, default: real, lo: real, hi: real)
    requires forall i :: 0 <= i < |es| ==> lo <= es[i].confidence <= hi
    ensures es == [] ==> AverageConfidence(es, default) == default
    ensures es != [] ==> lo <= AverageConfidence(es, default) <= hi
  {
    if es != [] {
      ConfSumBounds(es, lo, hi);
      DivideBetween(ConfSum(es), |es| as real, lo, hi);
    }
  }

  /** `[e for e in elements if e.page == page_num]` */
  function OnPage(elements: seq<Element>, pageNum: int): (r: seq<Element>)
    ensures forall i :: 0 <= i < |r| ==> r[i].page == pageNum
    ensures forall e :: e in elements && e.page == pageNum ==> e in r
    ensures forall e :: e in r ==> e in elements
    ensures forall e :: multiset(r)[e] == if e.page == pageNum then multiset(elements)[e] else 0
  {
    if elements == [] then []
    else
      var p := elements[..|elements| - 1];
      var e := elements[|elements| - 1];
      assert elements == p + [e];
      OnPage(p, pageNum) + (if e.page == pageNum then [e] else [])
  }
}
