/**
 * The dashboard's metric table (`detailedScores`) and the two lists it is
 * split into for display: "Financial & Business Metrics" and
 * "Social & Digital Impact", each kept by a filter on the entry's type.
 */
module Metrics {
  import opened Wrappers
  import opened DecimalText

  /**
   * One row of the metric table. `kind` is the entry's `type` (a reserved
   * word in Dafny); `weight` is the whole percent its weight text shows
   * ("15%" is 15), see WeightText.
   */
  datatype ScoreEntry = ScoreEntry(category: string, score: int, weight: nat, kind: string)

  /** The type names kept by the "Financial & Business Metrics" list. */
  const FinancialBusinessTypes: seq<string> := ["Financial", "Business"]

  /** The type names kept by the "Social & Digital Impact" list. */
  const SocialDigitalTypes: seq<string> := ["Social", "Digital"]

  /** The weight text a list item shows, e.g. "15%". */
  function WeightText(e: ScoreEntry): (s: string)
    ensures ParsePercent(s) == Some(e.weight)
    ensures Canonical(s[..|s| - 1])
  {
    PercentRoundTrip(e.weight);
    FormatPercent(e.weight)
  }

  /** `xs.filter(e => kinds.includes(e.type))`. */
  function FilterByType(kinds: seq<string>, xs: seq<ScoreEntry>): (r: seq<ScoreEntry>)
    ensures |r| <= |xs|
  {
    if xs == [] then []
    else (if xs[0].kind in kinds then [xs[0]] else []) + FilterByType(kinds, xs[1..])
  }

  /** The entries shown under "Financial & Business Metrics". */
  function FinancialAndBusiness(xs: seq<ScoreEntry>): (r: seq<ScoreEntry>)
    ensures forall e :: e in r <==> e in xs && (e.kind == "Financial" || e.kind == "Business")
  {
    FilterMembers(FinancialBusinessTypes, xs);
    FilterByType(FinancialBusinessTypes, xs)
  }

  /** The entries shown under "Social & Digital Impact". */
  function SocialAndDigital(xs: seq<ScoreEntry>): (r: seq<ScoreEntry>)
    ensures forall e :: e in r <==> e in xs && (e.kind == "Social" || e.kind == "Digital")
  {
    FilterMembers(SocialDigitalTypes, xs);
    FilterByType(SocialDigitalTypes, xs)
  }

  /** `a` is `b` with some elements dropped and the rest kept in order. */
  predicate IsSubsequence<T(==)>(a: seq<T>, b: seq<T>)
  {
    if a == [] then true
    else if b == [] then false
    else if a[0] == b[0] then IsSubsequence(a[1..], b[1..])
    else IsSubsequence(a, b[1..])
  }

  /** No type name is in both lists. */
  predicate DisjointTypes(k1: seq<string>, k2: seq<string>)
  {
    forall t :: t in k1 ==> t !in k2
  }

  /** Every entry's type is one of the given names. */
  predicate TypesAmong(xs: seq<ScoreEntry>, kinds: seq<string>)
  {
    forall i :: 0 <= i < |xs| ==> xs[i].kind in kinds
  }

  /** Every score lies in the closed range [lo, hi]. */
  predicate ScoresWithin(xs: seq<ScoreEntry>, lo: int, hi: int)
  {
    forall i :: 0 <= i < |xs| ==> lo <= xs[i].score <= hi
  }

  /** Sum of the entries' weight percents. */
  function WeightSum(xs: seq<ScoreEntry>): nat
  {
    if xs == [] then 0 else xs[0].weight + WeightSum(xs[1..])
  }

  /** Sum of the weights of the entries at positions lo .. hi-1. */
  function WeightRange(xs: seq<ScoreEntry>, lo: nat, hi: nat): nat
    requires lo <= hi <= |xs|
    decreases hi - lo
  {
    if lo == hi then 0 else xs[lo].weight + WeightRange(xs, lo + 1, hi)
  }

  /** A filtered list holds exactly the table's entries whose type is among the names. */
  lemma {:induction false} FilterMembers(kinds: seq<string>, xs: seq<ScoreEntry>)
    ensures forall e :: e in FilterByType(kinds, xs) <==> e in xs && e.kind in kinds
  {
    if xs != [] {
      FilterMembers(kinds, xs[1..]);
      assert xs == [xs[0]] + xs[1..];
    }
  }

  /** A filtered list keeps the relative order of the entries it keeps. */
  lemma {:induction false} FilterIsSubsequence(kinds: seq<string>, xs: seq<ScoreEntry>)
    ensures IsSubsequence(FilterByType(kinds, xs), xs)
  {
    if xs != [] {
      FilterIsSubsequence(kinds, xs[1..]);
      var rest := FilterByType(kinds, xs[1..]);
      if xs[0].kind in kinds {
        assert FilterByType(kinds, xs) == [xs[0]] + rest;
        assert ([xs[0]] + rest)[1..] == rest;
      } else {
        assert FilterByType(kinds, xs) == rest;
        SkipHead(rest, xs);
      }
    }
  }

  /** A subsequence of the tail is a subsequence of the whole. */
  lemma {:induction false} SkipHead<T>(a: seq<T>, b: seq<T>)
    requires b != [] && IsSubsequence(a, b[1..])
    ensures IsSubsequence(a, b)
  {
    if a != [] && a[0] == b[0] {
      SubsequenceOfTail(a, b[1..]);
    }
  }

  /** Dropping the first element of a subsequence keeps it a subsequence. */
  lemma {:induction false} SubsequenceOfTail<T>(a: seq<T>, b: seq<T>)
    requires a != [] && IsSubsequence(a, b)
    ensures IsSubsequence(a[1..], b)
  {
    if a[0] == b[0] {
      SkipHead(a[1..], b);
    } else {
      SubsequenceOfTail(a, b[1..]);
      SkipHead(a[1..], b);
    }
  }

  /** Filters on disjoint type names never show the same entry twice. */
  lemma FiltersDisjoint(k1: seq<string>, k2: seq<string>, xs: seq<ScoreEntry>)
    requires DisjointTypes(k1, k2)
    ensures forall e :: !(e in FilterByType(k1, xs) && e in FilterByType(k2, xs))
  {
    FilterMembers(k1, xs);
    FilterMembers(k2, xs);
  }

  /**
   * When every entry's type is in one of two disjoint name lists, the two
   * filters together hold each entry exactly as often as the table does.
   */
  lemma {:induction false} FiltersPartition(k1: seq<string>, k2: seq<string>, xs: seq<ScoreEntry>)
    requires DisjointTypes(k1, k2)
    requires TypesAmong(xs, k1 + k2)
    ensures multiset(FilterByType(k1, xs)) + multiset(FilterByType(k2, xs)) == multiset(xs)
    ensures |FilterByType(k1, xs)| + |FilterByType(k2, xs)| == |xs|
  {
    if xs != [] {
      FiltersPartition(k1, k2, xs[1..]);
      assert xs == [xs[0]] + xs[1..];
      assert multiset(xs) == multiset{xs[0]} + multiset(xs[1..]);
    }
  }

  /** Under the same conditions the table's weight total splits into the two filters' totals. */
  lemma {:induction false} WeightSumPartition(k1: seq<string>, k2: seq<string>, xs: seq<ScoreEntry>)
    requires DisjointTypes(k1, k2)
    requires TypesAmong(xs, k1 + k2)
    ensures WeightSum(xs) == WeightSum(FilterByType(k1, xs)) + WeightSum(FilterByType(k2, xs))
  {
    if xs != [] {
      var x, rest := xs[0], xs[1..];
      assert TypesAmong(rest, k1 + k2) by {
        forall i | 0 <= i < |rest| ensures rest[i].kind in k1 + k2 {
          assert rest[i] == xs[i + 1];
        }
      }
      WeightSumPartition(k1, k2, rest);
      var f1, f2 := FilterByType(k1, rest), FilterByType(k2, rest);
      assert x.kind in k1 + k2;
      if x.kind in k1 {
        assert x.kind !in k2;
        assert FilterByType(k1, xs) == [x] + f1;
        assert FilterByType(k2, xs) == [] + f2 == f2;
        assert ([x] + f1)[1..] == f1;
      } else {
        assert x.kind in k2;
        assert FilterByType(k1, xs) == [] + f1 == f1;
        assert FilterByType(k2, xs) == [x] + f2;
        assert ([x] + f2)[1..] == f2;
      }
    }
  }

  /** Both displayed lists keep the table's order. */
  lemma DisplayedListsOrdered(xs: seq<ScoreEntry>)
    ensures IsSubsequence(FinancialAndBusiness(xs), xs)
    ensures IsSubsequence(SocialAndDigital(xs), xs)
  {
    FilterIsSubsequence(FinancialBusinessTypes, xs);
    FilterIsSubsequence(SocialDigitalTypes, xs);
  }

  /** No entry is shown in both lists. */
  lemma DisplayedListsDisjoint(xs: seq<ScoreEntry>)
    ensures forall e :: !(e in FinancialAndBusiness(xs) && e in SocialAndDigital(xs))
  {
  }

  /**
   * When every entry's type is one of the four dimension names, the two lists
   * together show each entry of the table exactly once, and their weight
   * totals add up to the table's.
   */
  lemma DisplayedListsCover(xs: seq<ScoreEntry>)
    requires TypesAmong(xs, FinancialBusinessTypes + SocialDigitalTypes)
    ensures multiset(FinancialAndBusiness(xs)) + multiset(SocialAndDigital(xs)) == multiset(xs)
    ensures |FinancialAndBusiness(xs)| + |SocialAndDigital(xs)| == |xs|
    ensures WeightSum(FinancialAndBusiness(xs)) + WeightSum(SocialAndDigital(xs)) == WeightSum(xs)
  {
    FiltersPartition(FinancialBusinessTypes, SocialDigitalTypes, xs);
    WeightSumPartition(FinancialBusinessTypes, SocialDigitalTypes, xs);
  }

  /** Filtering distributes over concatenation of tables. */
  lemma {:induction false} FilterAppend(kinds: seq<string>, a: seq<ScoreEntry>, b: seq<ScoreEntry>)
    ensures FilterByType(kinds, a + b) == FilterByType(kinds, a) + FilterByType(kinds, b)
  {
    if a != [] {
      FilterAppend(kinds, a[1..], b);
      assert (a + b)[1..] == a[1..] + b;
    } else {
      assert a + b == b;
    }
  }

  /** A filter keeps the whole table when every type is among the names, and nothing when none is. */
  lemma {:induction false} FilterAllOrNone(kinds: seq<string>, xs: seq<ScoreEntry>)
    ensures TypesAmong(xs, kinds) ==> FilterByType(kinds, xs) == xs
    ensures (forall i :: 0 <= i < |xs| ==> xs[i].kind !in kinds) ==> FilterByType(kinds, xs) == []
  {
    if xs != [] {
      FilterAllOrNone(kinds, xs[1..]);
      if TypesAmong(xs, kinds) {
        assert TypesAmong(xs[1..], kinds);
        assert [xs[0]] + xs[1..] == xs;
      }
    }
  }

  /** The three parts of a table around the section [lo, hi) that holds every entry of one type. */
  lemma SectionParts(kind: string, xs: seq<ScoreEntry>, lo: nat, hi: nat)
    requires lo <= hi <= |xs|
    requires forall i :: 0 <= i < |xs| ==> (xs[i].kind == kind <==> lo <= i < hi)
    ensures FilterByType([kind], xs[..lo]) == []
    ensures FilterByType([kind], xs[lo..hi]) == xs[lo..hi]
    ensures FilterByType([kind], xs[hi..]) == []
  {
    var a, b, c := xs[..lo], xs[lo..hi], xs[hi..];
    assert FilterByType([kind], a) == [] by {
      forall j | 0 <= j < |a| ensures a[j].kind !in [kind] {
        assert a[j] == xs[j];
      }
      FilterAllOrNone([kind], a);
    }
    assert FilterByType([kind], b) == b by {
      forall j | 0 <= j < |b| ensures b[j].kind in [kind] {
        assert b[j] == xs[lo + j];
      }
      FilterAllOrNone([kind], b);
    }
    assert FilterByType([kind], c) == [] by {
      forall j | 0 <= j < |c| ensures c[j].kind !in [kind] {
        assert c[j] == xs[hi + j];
      }
      FilterAllOrNone([kind], c);
    }
  }

  /** Three tables one after the other, of which only the middle one passes the filter. */
  lemma FilterOnlyMiddle(kinds: seq<string>, a: seq<ScoreEntry>, b: seq<ScoreEntry>, c: seq<ScoreEntry>)
    requires FilterByType(kinds, a) == [] && FilterByType(kinds, b) == b && FilterByType(kinds, c) == []
    ensures FilterByType(kinds, a + b + c) == b
  {
    FilterAppend(kinds, a, b);
    FilterAppend(kinds, a + b, c);
    assert [] + b == b && b + [] == b;
  }

  /** A table is its part before lo, its section [lo, hi) and its part from hi. */
  lemma SplitThree<T>(xs: seq<T>, lo: nat, hi: nat)
    requires lo <= hi <= |xs|
    ensures xs == xs[..lo] + xs[lo..hi] + xs[hi..]
  {
  }

  /** The parts of a table before and from a position, written as sections. */
  lemma SectionBounds<T>(xs: seq<T>, k: nat)
    requires k <= |xs|
    ensures xs[..k] == xs[0..k] && xs[k..] == xs[k..|xs|]
  {
  }

  /** The only weight text without leading zeros that reads as an entry's weight is the one its item shows. */
  lemma WeightTextUnique(e: ScoreEntry, s: string)
    requires ParsePercent(s) == Some(e.weight)
    requires Canonical(s[..|s| - 1])
    ensures s == WeightText(e)
  {
    PercentTextCanonical(s);
  }

  /** When the entries of one type form the section [lo, hi), filtering on that type gives the section. */
  lemma FilterSection(kind: string, xs: seq<ScoreEntry>, lo: nat, hi: nat)
    requires lo <= hi <= |xs|
    requires forall i :: 0 <= i < |xs| ==> (xs[i].kind == kind <==> lo <= i < hi)
    ensures FilterByType([kind], xs) == xs[lo..hi]
  {
    SectionParts(kind, xs, lo, hi);
    SplitThree(xs, lo, hi);
    FilterOnlyMiddle([kind], xs[..lo], xs[lo..hi], xs[hi..]);
  }

  /** The weight total of a section is the sum of its entries' weights, position by position. */
  lemma {:induction false} SectionWeightSum(xs: seq<ScoreEntry>, lo: nat, hi: nat)
    requires lo <= hi <= |xs|
    ensures WeightSum(xs[lo..hi]) == WeightRange(xs, lo, hi)
    decreases hi - lo
  {
    if lo < hi {
      SectionWeightSum(xs, lo + 1, hi);
      assert xs[lo..hi][1..] == xs[lo + 1..hi];
      assert xs[lo..hi][0] == xs[lo];
    }
  }

  /** A range's weight total is the totals of its two parts. */
  lemma {:induction false} WeightRangeSplit(xs: seq<ScoreEntry>, lo: nat, mid: nat, hi: nat)
    requires lo <= mid <= hi <= |xs|
    ensures WeightRange(xs, lo, hi) == WeightRange(xs, lo, mid) + WeightRange(xs, mid, hi)
    decreases mid - lo
  {
    if lo < mid {
      WeightRangeSplit(xs, lo + 1, mid, hi);
    }
  }
}
