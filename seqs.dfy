/** Generic folds over sequences and strings that the dashboard's screens are
    built from: JavaScript's Array.prototype.filter, find and map-by-predicate,
    reduce-to-a-sum, reduce-into-an-object (grouped sums), a bounded
    newest-first history, and String.prototype.includes / replace / toLowerCase. */
module Seqs {

  datatype Option<T> = None | Some(value: T)

  /** Array.prototype.filter: the elements satisfying p, in their original order. */
  function Filter<T(==)>(xs: seq<T>, p: T -> bool): (r: seq<T>)
    ensures |r| <= |xs|
    ensures forall i :: 0 <= i < |r| ==> p(r[i])
  {
    if xs == [] then [] else (if p(xs[0]) then [xs[0]] else []) + Filter(xs[1..], p)
  }

  /** Filter keeps exactly the elements that satisfy p. */
  lemma {:induction false} FilterMembers<T(!new)>(xs: seq<T>, p: T -> bool)
    ensures forall x :: x in Filter(xs, p) <==> x in xs && p(x)
  {
    if xs != [] {
      FilterMembers(xs[1..], p);
      assert xs == [xs[0]] + xs[1..];
    }
  }

  /** The complement of a predicate. */
  function Not<T>(p: T -> bool): T -> bool
  {
    x => !p(x)
  }

  /** reduce((sum, x) => sum + f(x), 0) */
  function Sum<T>(xs: seq<T>, f: T -> int): int
  {
    if xs == [] then 0 else f(xs[0]) + Sum(xs[1..], f)
  }

  /** Array.prototype.findIndex, as an Option: the first position satisfying p. */
  function FindIndex<T>(xs: seq<T>, p: T -> bool): (r: Option<nat>)
    ensures r.None? <==> forall i :: 0 <= i < |xs| ==> !p(xs[i])
    ensures r.Some? ==> r.value < |xs| && p(xs[r.value])
    ensures r.Some? ==> forall j :: 0 <= j < r.value ==> !p(xs[j])
  {
    if xs == [] then None
    else if p(xs[0]) then Some(0)
    else match FindIndex(xs[1..], p)
      case None => None
      case Some(i) => Some(i + 1)
  }

  /** xs.map(x => p(x) ? f(x) : x): rewrite the matching elements, keep the rest. */
  function MapWhere<T>(xs: seq<T>, p: T -> bool, f: T -> T): (r: seq<T>)
    ensures |r| == |xs|
    ensures forall i :: 0 <= i < |xs| ==> r[i] == (if p(xs[i]) then f(xs[i]) else xs[i])
  {
    if xs == [] then [] else [if p(xs[0]) then f(xs[0]) else xs[0]] + MapWhere(xs[1..], p, f)
  }

  /** [x, ...buf.slice(0, keep)]: a newest-first history that keeps at most keep + 1 entries. */
  function PushRecent<T>(buf: seq<T>, x: T, keep: nat): (r: seq<T>)
    ensures 1 <= |r| <= keep + 1 && |r| <= |buf| + 1
    ensures r[0] == x
    ensures r[1..] == buf[..|r| - 1]
    ensures |buf| < keep + 1 ==> |r| == |buf| + 1
  {
    [x] + (if |buf| <= keep then buf else buf[..keep])
  }

  lemma {:induction false} SumAppend<T>(xs: seq<T>, ys: seq<T>, f: T -> int)
    ensures Sum(xs + ys, f) == Sum(xs, f) + Sum(ys, f)
  {
    if xs == [] {
      assert xs + ys == ys;
    } else {
      assert (xs + ys)[1..] == xs[1..] + ys;
      SumAppend(xs[1..], ys, f);
    }
  }

  lemma {:induction false} FilterAppend<T(!new)>(xs: seq<T>, ys: seq<T>, p: T -> bool)
    ensures Filter(xs + ys, p) == Filter(xs, p) + Filter(ys, p)
  {
    if xs == [] {
      assert xs + ys == ys;
    } else {
      assert (xs + ys)[1..] == xs[1..] + ys;
      FilterAppend(xs[1..], ys, p);
    }
  }

  /** Concatenation regroups freely; stated once so that callers need not re-derive it
      element by element. */
  lemma {:induction false} ConcatAssoc<T>(a: seq<T>, b: seq<T>, c: seq<T>)
    ensures a + (b + c) == (a + b) + c
  {
  }

  /** Filtering after appending one element keeps it exactly when it passes. */
  lemma {:induction false} FilterAppendOne<T(!new)>(xs: seq<T>, x: T, p: T -> bool)
    ensures Filter(xs + [x], p) == Filter(xs, p) + (if p(x) then [x] else [])
  {
    FilterAppend(xs, [x], p);
    assert [x][1..] == [];
  }

  /** Replacing one element moves the sum by the difference of the two values. */
  lemma {:induction false} SumUpdate<T>(xs: seq<T>, i: nat, y: T, f: T -> int)
    requires i < |xs|
    ensures Sum(xs[i := y], f) == Sum(xs, f) - f(xs[i]) + f(y)
  {
    if i > 0 {
      assert xs[i := y][1..] == xs[1..][i - 1 := y];
      SumUpdate(xs[1..], i - 1, y, f);
    }
  }

  /** When every element that satisfies p after a change satisfied it before, at most as
      many elements satisfy it. */
  lemma {:induction false} FilterCountMono<T>(xs: seq<T>, ys: seq<T>, p: T -> bool)
    requires |xs| == |ys|
    requires forall i :: 0 <= i < |ys| ==> p(ys[i]) ==> p(xs[i])
    ensures |Filter(ys, p)| <= |Filter(xs, p)|
  {
    if xs != [] {
      assert forall i :: 0 <= i < |ys[1..]| ==> ys[1..][i] == ys[i + 1] && xs[1..][i] == xs[i + 1];
      FilterCountMono(xs[1..], ys[1..], p);
    }
  }

  /** Every element is counted exactly once by a predicate or by its complement. */
  lemma {:induction false} FilterSplitCount<T(!new)>(xs: seq<T>, p: T -> bool)
    ensures |Filter(xs, p)| + |Filter(xs, Not(p))| == |xs|
  {
    if xs != [] {
      FilterSplitCount(xs[1..], p);
    }
  }

  /** The sums over a predicate and over its complement add up to the whole sum. */
  lemma {:induction false} FilterSplitSum<T(!new)>(xs: seq<T>, p: T -> bool, f: T -> int)
    ensures Sum(Filter(xs, p), f) + Sum(Filter(xs, Not(p)), f) == Sum(xs, f)
  {
    if xs != [] {
      FilterSplitSum(xs[1..], p, f);
      var rest := Filter(xs[1..], p);
      var restNot := Filter(xs[1..], Not(p));
      if p(xs[0]) {
        assert Filter(xs, p) == [xs[0]] + rest;
        assert Filter(xs, Not(p)) == restNot;
        SumAppend([xs[0]], rest, f);
      } else {
        assert Filter(xs, p) == rest;
        assert Filter(xs, Not(p)) == [xs[0]] + restNot;
        SumAppend([xs[0]], restNot, f);
      }
    }
  }

  /** Filtering twice is filtering by the conjunction. */
  lemma {:induction false} FilterFilter<T(!new)>(xs: seq<T>, p: T -> bool, q: T -> bool)
    ensures Filter(Filter(xs, p), q) == Filter(xs, And(p, q))
  {
    if xs != [] {
      FilterFilter(xs[1..], p, q);
      var rest := Filter(xs[1..], p);
      if p(xs[0]) {
        assert Filter(xs, p) == [xs[0]] + rest;
        FilterAppend([xs[0]], rest, q);
      } else {
        assert Filter(xs, p) == rest;
      }
    }
  }

  /** Two predicates that no element satisfies together count at most every element once. */
  lemma {:induction false} FilterDisjointCount<T>(xs: seq<T>, p: T -> bool, q: T -> bool)
    requires forall i :: 0 <= i < |xs| ==> !(p(xs[i]) && q(xs[i]))
    ensures |Filter(xs, p)| + |Filter(xs, q)| <= |xs|
  {
    if xs != [] {
      assert forall i :: 0 <= i < |xs[1..]| ==> xs[1..][i] == xs[i + 1];
      FilterDisjointCount(xs[1..], p, q);
    }
  }

  /** Two predicates that agree on every element keep the same elements. */
  lemma {:induction false} FilterSame<T>(xs: seq<T>, p: T -> bool, q: T -> bool)
    requires forall i :: 0 <= i < |xs| ==> p(xs[i]) == q(xs[i])
    ensures Filter(xs, p) == Filter(xs, q)
  {
    if xs != [] {
      assert forall i :: 0 <= i < |xs[1..]| ==> xs[1..][i] == xs[i + 1];
      FilterSame(xs[1..], p, q);
    }
  }

  /** The conjunction of two predicates. */
  function And<T>(p: T -> bool, q: T -> bool): T -> bool
  {
    x => p(x) && q(x)
  }

  /** Positions whose elements satisfy p are counted by Filter. */
  lemma {:induction false} FilterEmpty<T(!new)>(xs: seq<T>, p: T -> bool)
    requires forall i :: 0 <= i < |xs| ==> !p(xs[i])
    ensures Filter(xs, p) == []
  {
    if xs != [] {
      FilterEmpty(xs[1..], p);
    }
  }

  // ---------------------------------------------------------------------------
  // Grouped sums: xs.reduce((acc, x) => { acc[key(x)] = (acc[key(x)] || 0) + f(x); return acc }, {})
  // An object's entries are kept as an association list in insertion order.

  /** The value stored under k, or 0 when k is absent (the `|| 0` of the reduce). */
  function ValueOf<K(==)>(acc: seq<(K, int)>, k: K): int
  {
    if acc == [] then 0 else if acc[0].0 == k then acc[0].1 else ValueOf(acc[1..], k)
  }

  /** The keys of an association list. */
  function Keys<K(==)>(acc: seq<(K, int)>): set<K>
  {
    if acc == [] then {} else {acc[0].0} + Keys(acc[1..])
  }

  /** Every key occurs once, as in an object. */
  predicate DistinctKeys<K(==)>(acc: seq<(K, int)>)
  {
    acc == [] || (acc[0].0 !in Keys(acc[1..]) && DistinctKeys(acc[1..]))
  }

  function SumValues<K>(acc: seq<(K, int)>): int
  {
    if acc == [] then 0 else acc[0].1 + SumValues(acc[1..])
  }

  /** acc[k] = (acc[k] || 0) + v */
  function AddTo<K(==,!new)>(acc: seq<(K, int)>, k: K, v: int): (r: seq<(K, int)>)
    requires DistinctKeys(acc)
    ensures DistinctKeys(r)
    ensures Keys(r) == Keys(acc) + {k}
    ensures SumValues(r) == SumValues(acc) + v
    ensures ValueOf(r, k) == ValueOf(acc, k) + v
    ensures forall k' :: k' != k ==> ValueOf(r, k') == ValueOf(acc, k')
  {
    if acc == [] then [(k, v)]
    else if acc[0].0 == k then
      KeyAbsentValue(acc[1..], k);
      [(k, acc[0].1 + v)] + acc[1..]
    else
      [acc[0]] + AddTo(acc[1..], k, v)
  }

  lemma {:induction false} KeyAbsentValue<K(!new)>(acc: seq<(K, int)>, k: K)
    requires k !in Keys(acc)
    ensures ValueOf(acc, k) == 0
  {
    if acc != [] {
      KeyAbsentValue(acc[1..], k);
    }
  }

  /** The reduce itself, starting from acc and consuming xs from the left. */
  function TallyFrom<T, K(==,!new)>(acc: seq<(K, int)>, xs: seq<T>, key: T -> K, f: T -> int): seq<(K, int)>
    requires DistinctKeys(acc)
    decreases |xs|
  {
    if xs == [] then acc else TallyFrom(AddTo(acc, key(xs[0]), f(xs[0])), xs[1..], key, f)
  }

  function Tally<T, K(==,!new)>(xs: seq<T>, key: T -> K, f: T -> int): seq<(K, int)>
  {
    TallyFrom([], xs, key, f)
  }

  /** The predicate "the key of x is k". */
  function KeyIs<T, K(==)>(key: T -> K, k: K): T -> bool
  {
    x => key(x) == k
  }

  /** A grouped sum loses nothing: its values add up to the plain sum, every key
      occurs once, and the value under each key is the sum over the elements with that key. */
  lemma {:induction false} TallyFromFacts<T(!new), K(!new)>(acc: seq<(K, int)>, xs: seq<T>, key: T -> K, f: T -> int)
    requires DistinctKeys(acc)
    decreases |xs|
    ensures DistinctKeys(TallyFrom(acc, xs, key, f))
    ensures SumValues(TallyFrom(acc, xs, key, f)) == SumValues(acc) + Sum(xs, f)
    ensures forall k :: ValueOf(TallyFrom(acc, xs, key, f), k) == ValueOf(acc, k) + Sum(Filter(xs, KeyIs(key, k)), f)
  {
    if xs != [] {
      var acc' := AddTo(acc, key(xs[0]), f(xs[0]));
      TallyFromFacts(acc', xs[1..], key, f);
      forall k
        ensures ValueOf(TallyFrom(acc, xs, key, f), k) == ValueOf(acc, k) + Sum(Filter(xs, KeyIs(key, k)), f)
      {
        var rest := Filter(xs[1..], KeyIs(key, k));
        if key(xs[0]) == k {
          assert Filter(xs, KeyIs(key, k)) == [xs[0]] + rest;
          SumAppend([xs[0]], rest, f);
        } else {
          assert Filter(xs, KeyIs(key, k)) == rest;
        }
      }
    }
  }

  lemma TallyFacts<T(!new), K(!new)>(xs: seq<T>, key: T -> K, f: T -> int)
    ensures DistinctKeys(Tally(xs, key, f))
    ensures SumValues(Tally(xs, key, f)) == Sum(xs, f)
    ensures forall k :: ValueOf(Tally(xs, key, f), k) == Sum(Filter(xs, KeyIs(key, k)), f)
  {
    TallyFromFacts([], xs, key, f);
  }

  // ---------------------------------------------------------------------------
  // Totals per key over a fixed list of keys, as the report screens spell them out
  // one filter-and-sum per listed value.

  /** No value occurs twice. */
  predicate Distinct<K(==)>(ks: seq<K>)
  {
    forall i, j :: 0 <= i < j < |ks| ==> ks[i] != ks[j]
  }

  /** The sum over the elements whose key is k. */
  function KeyTotal<T(==), K(==)>(xs: seq<T>, key: T -> K, f: T -> int, k: K): int
  {
    Sum(Filter(xs, KeyIs(key, k)), f)
  }

  /** The per-key totals of ks, added up. */
  function SumByKeys<T(==), K(==)>(xs: seq<T>, key: T -> K, f: T -> int, ks: seq<K>): int
  {
    if ks == [] then 0 else KeyTotal(xs, key, f, ks[0]) + SumByKeys(xs, key, f, ks[1..])
  }

  /** Summing over a filter takes the first element exactly when it passes. */
  lemma {:induction false} SumFilterCons<T>(xs: seq<T>, p: T -> bool, f: T -> int)
    requires xs != []
    ensures Sum(Filter(xs, p), f) == (if p(xs[0]) then f(xs[0]) else 0) + Sum(Filter(xs[1..], p), f)
  {
    if p(xs[0]) {
      assert Filter(xs, p) == [xs[0]] + Filter(xs[1..], p);
      assert ([xs[0]] + Filter(xs[1..], p))[1..] == Filter(xs[1..], p);
    } else {
      assert Filter(xs, p) == [] + Filter(xs[1..], p);
      assert [] + Filter(xs[1..], p) == Filter(xs[1..], p);
    }
  }

  lemma {:induction false} SumByKeysEmpty<T, K>(key: T -> K, f: T -> int, ks: seq<K>)
    ensures SumByKeys([], key, f, ks) == 0
  {
    if ks != [] {
      SumByKeysEmpty(key, f, ks[1..]);
    }
  }

  /** With distinct keys, the first element lands in at most one per-key total. */
  lemma {:induction false} SumByKeysCons<T, K>(xs: seq<T>, key: T -> K, f: T -> int, ks: seq<K>)
    requires xs != [] && Distinct(ks)
    ensures SumByKeys(xs, key, f, ks) == (if key(xs[0]) in ks then f(xs[0]) else 0) + SumByKeys(xs[1..], key, f, ks)
  {
    if ks != [] {
      assert Distinct(ks[1..]) by {
        forall i, j | 0 <= i < j < |ks[1..]| ensures ks[1..][i] != ks[1..][j] {
          assert ks[1..][i] == ks[i + 1] && ks[1..][j] == ks[j + 1];
        }
      }
      SumByKeysCons(xs, key, f, ks[1..]);
      SumFilterCons(xs, KeyIs(key, ks[0]), f);
      assert key(xs[0]) in ks <==> key(xs[0]) == ks[0] || key(xs[0]) in ks[1..];
      assert ks[0] !in ks[1..] by {
        forall j | 0 <= j < |ks[1..]| ensures ks[1..][j] != ks[0] {
          assert ks[1..][j] == ks[j + 1];
        }
      }
    }
  }

  /** When every element's key is one of the distinct keys ks, the per-key totals
      add up to the whole sum. */
  lemma {:induction false} SumByKeysAll<T, K>(xs: seq<T>, key: T -> K, f: T -> int, ks: seq<K>)
    requires Distinct(ks)
    requires forall i :: 0 <= i < |xs| ==> key(xs[i]) in ks
    ensures SumByKeys(xs, key, f, ks) == Sum(xs, f)
  {
    if xs == [] {
      SumByKeysEmpty(key, f, ks);
    } else {
      SumByKeysCons(xs, key, f, ks);
      assert forall i :: 0 <= i < |xs[1..]| ==> xs[1..][i] == xs[i + 1];
      SumByKeysAll(xs[1..], key, f, ks);
    }
  }

  /** The per-key totals of a six-value list, spelled out. */
  lemma {:induction false} SixKeys<T, K>(xs: seq<T>, key: T -> K, f: T -> int, a: K, b: K, c: K, d: K, e: K, g: K)
    ensures SumByKeys(xs, key, f, [a, b, c, d, e, g]) ==
      KeyTotal(xs, key, f, a) + KeyTotal(xs, key, f, b) + KeyTotal(xs, key, f, c) +
      KeyTotal(xs, key, f, d) + KeyTotal(xs, key, f, e) + KeyTotal(xs, key, f, g)
  {
    FourKeys(xs, key, f, c, d, e, g);
    assert [a, b, c, d, e, g][1..] == [b, c, d, e, g];
    assert [b, c, d, e, g][1..] == [c, d, e, g];
  }

  /** The per-key totals of a four-value list, spelled out. */
  lemma {:induction false} FourKeys<T, K>(xs: seq<T>, key: T -> K, f: T -> int, a: K, b: K, c: K, d: K)
    ensures SumByKeys(xs, key, f, [a, b, c, d]) ==
      KeyTotal(xs, key, f, a) + KeyTotal(xs, key, f, b) + KeyTotal(xs, key, f, c) + KeyTotal(xs, key, f, d)
  {
    assert [d][1..] == [];
    assert SumByKeys(xs, key, f, [d]) == KeyTotal(xs, key, f, d);
    assert [c, d][1..] == [d];
    assert SumByKeys(xs, key, f, [c, d]) == KeyTotal(xs, key, f, c) + KeyTotal(xs, key, f, d);
    assert [b, c, d][1..] == [c, d];
    assert [a, b, c, d][1..] == [b, c, d];
  }

  /** Per-key totals over two key lists add up to the totals over the joined list. */
  lemma {:induction false} SumByKeysConcat<T, K>(xs: seq<T>, key: T -> K, f: T -> int, ks1: seq<K>, ks2: seq<K>)
    ensures SumByKeys(xs, key, f, ks1 + ks2) == SumByKeys(xs, key, f, ks1) + SumByKeys(xs, key, f, ks2)
  {
    if ks1 == [] {
      assert ks1 + ks2 == ks2;
    } else {
      assert (ks1 + ks2)[1..] == ks1[1..] + ks2;
      SumByKeysConcat(xs, key, f, ks1[1..], ks2);
    }
  }

  /** The per-key totals of an eight-value list, spelled out. */
  lemma {:induction false} EightKeys<T, K>(xs: seq<T>, key: T -> K, f: T -> int, a: K, b: K, c: K, d: K, e: K, g: K, h: K, l: K)
    ensures SumByKeys(xs, key, f, [a, b, c, d, e, g, h, l]) ==
      KeyTotal(xs, key, f, a) + KeyTotal(xs, key, f, b) + KeyTotal(xs, key, f, c) + KeyTotal(xs, key, f, d) +
      KeyTotal(xs, key, f, e) + KeyTotal(xs, key, f, g) + KeyTotal(xs, key, f, h) + KeyTotal(xs, key, f, l)
  {
    FourKeys(xs, key, f, a, b, c, d);
    FourKeys(xs, key, f, e, g, h, l);
    assert [a, b, c, d, e, g, h, l] == [a, b, c, d] + [e, g, h, l];
    SumByKeysConcat(xs, key, f, [a, b, c, d], [e, g, h, l]);
  }

  // ---------------------------------------------------------------------------
  // Strings

  /** String.prototype.toLowerCase on one character; only the ASCII letters have case here. */
  function LowerChar(c: char): char
  {
    if 'A' <= c <= 'Z' then (c as int + 32) as char else c
  }

  function Lower(s: string): (r: string)
    ensures |r| == |s|
    ensures forall i :: 0 <= i < |s| ==> r[i] == LowerChar(s[i])
  {
    if s == [] then [] else [LowerChar(s[0])] + Lower(s[1..])
  }

  /** needle occurs in hay at position j. */
  predicate OccursAt(hay: string, needle: string, j: int)
  {
    0 <= j && j + |needle| <= |hay| && hay[j..j + |needle|] == needle
  }

  lemma OccursShift(hay: string, needle: string, j: int)
    requires hay != [] && j >= 0
    ensures OccursAt(hay, needle, j + 1) <==> OccursAt(hay[1..], needle, j)
  {
    if 0 <= j && j + 1 + |needle| <= |hay| {
      assert hay[j + 1..j + 1 + |needle|] == hay[1..][j..j + |needle|];
    }
  }

  /** haystack.indexOf(needle), as an Option: the first position where needle occurs. */
  function IndexOf(hay: string, needle: string): (r: Option<nat>)
    ensures r.Some? ==> OccursAt(hay, needle, r.value)
    ensures r.Some? ==> forall j :: 0 <= j < r.value ==> !OccursAt(hay, needle, j)
    ensures r.None? <==> forall j :: !OccursAt(hay, needle, j)
  {
    if |hay| < |needle| then None
    else if hay[..|needle|] == needle then
      assert OccursAt(hay, needle, 0);
      Some(0)
    else
      assert !OccursAt(hay, needle, 0);
      match IndexOf(hay[1..], needle)
      case None =>
        assert forall j :: !OccursAt(hay, needle, j) by {
          forall j ensures !OccursAt(hay, needle, j) {
            if j >= 1 { OccursShift(hay, needle, j - 1); }
          }
        }
        None
      case Some(i) =>
        OccursShift(hay, needle, i);
        assert forall j :: 0 <= j < i + 1 ==> !OccursAt(hay, needle, j) by {
          forall j | 0 <= j < i + 1 ensures !OccursAt(hay, needle, j) {
            if j >= 1 { OccursShift(hay, needle, j - 1); }
          }
        }
        Some(i + 1)
  }

  /** String.prototype.includes */
  predicate Includes(hay: string, needle: string)
  {
    IndexOf(hay, needle).Some?
  }

  /** The empty search text is contained in every string. */
  lemma IncludesEmpty(hay: string)
    ensures Includes(hay, "")
  {
    assert OccursAt(hay, "", 0);
  }

  /** Case-insensitive search as the screens write it: text.toLowerCase().includes(search.toLowerCase()). */
  predicate MatchesText(text: string, search: string)
  {
    Includes(Lower(text), Lower(search))
  }

  /** String.prototype.replace with a string pattern: only the first occurrence is replaced. */
  function ReplaceFirst(s: string, pattern: string, replacement: string): (r: string)
    ensures IndexOf(s, pattern).None? ==> r == s
  {
    match IndexOf(s, pattern)
    case None => s
    case Some(i) => s[..i] + replacement + s[i + |pattern|..]
  }

  /** Removing a prefix with replace recovers what followed it. */
  lemma {:induction false} ReplacePrefix(pattern: string, rest: string)
    ensures ReplaceFirst(pattern + rest, pattern, "") == rest
  {
    var s := pattern + rest;
    assert s[0..0 + |pattern|] == pattern;
    assert OccursAt(s, pattern, 0);
    assert IndexOf(s, pattern) == Some(0);
    assert s[|pattern|..] == rest;
  }

  /** JavaScript's `<=` on two strings: lexicographic order of the characters. */
  predicate TextLe(a: string, b: string)
  {
    if a == [] then true
    else if b == [] then false
    else if a[0] != b[0] then a[0] < b[0]
    else TextLe(a[1..], b[1..])
  }

  lemma {:induction false} TextLeRefl(a: string)
    ensures TextLe(a, a)
  {
    if a != [] {
      TextLeRefl(a[1..]);
    }
  }

  /** Two texts each at most the other are the same text. */
  lemma {:induction false} TextLeAntisym(a: string, b: string)
    requires TextLe(a, b) && TextLe(b, a)
    ensures a == b
  {
    if a != [] && b != [] {
      TextLeAntisym(a[1..], b[1..]);
      assert a == [a[0]] + a[1..] && b == [b[0]] + b[1..];
    }
  }
}
