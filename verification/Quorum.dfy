/** Majority arithmetic: the index the leader commits, and why two majorities meet. */
module Quorum {

  function Insert(x: int, s: seq<int>): seq<int> {
    if s == [] || x <= s[0] then [x] + s else [s[0]] + Insert(x, s[1..])
  }

  function Sorted(s: seq<int>): (t: seq<int>)
    ensures |t| == |s|
  {
    if s == [] then [] else InsertLength(s[0], Sorted(s[1..])); Insert(s[0], Sorted(s[1..]))
  }

  lemma InsertLength(x: int, s: seq<int>)
    ensures |Insert(x, s)| == |s| + 1
  {
  }

  function Majority(members: nat): nat {
    members / 2 + 1
  }

  /** The entry a majority from the top of the ascending order. */
  function MajorityIndex(idxs: seq<int>): int
    requires idxs != []
  {
    Sorted(idxs)[|idxs| - Majority(|idxs|)]
  }

  ghost predicate Ascending(s: seq<int>) {
    forall i, j :: 0 <= i < j < |s| ==> s[i] <= s[j]
  }

  function CountAtLeast(s: seq<int>, v: int): nat {
    if s == [] then 0 else (if s[0] >= v then 1 else 0) + CountAtLeast(s[1..], v)
  }

  lemma {:induction false} InsertKeepsCount(x: int, s: seq<int>, v: int)
    ensures CountAtLeast(Insert(x, s), v) == (if x >= v then 1 else 0) + CountAtLeast(s, v)
  {
    if s == [] || x <= s[0] {
      assert ([x] + s)[1..] == s;
    } else {
      InsertKeepsCount(x, s[1..], v);
      assert ([s[0]] + Insert(x, s[1..]))[1..] == Insert(x, s[1..]);
    }
  }

  lemma {:induction false} InsertAscending(x: int, s: seq<int>)
    requires Ascending(s)
    ensures Ascending(Insert(x, s))
    ensures forall y :: y in Insert(x, s) <==> y == x || y in s
  {
    if s != [] && x > s[0] {
      var rest := Insert(x, s[1..]);
      InsertAscending(x, s[1..]);
      assert s == [s[0]] + s[1..];
      forall y | y in rest ensures s[0] <= y {
        assert y == x || y in s[1..];
      }
      PrependAscending(s[0], rest);
    }
  }

  lemma PrependAscending(x: int, s: seq<int>)
    requires Ascending(s) && forall y :: y in s ==> x <= y
    ensures Ascending([x] + s)
  {
    forall i | 0 <= i < |s| ensures x <= s[i] {
      assert s[i] in s;
    }
  }

  lemma {:induction false} SortedKeepsCount(s: seq<int>, v: int)
    ensures Ascending(Sorted(s))
    ensures CountAtLeast(Sorted(s), v) == CountAtLeast(s, v)
  {
    if s != [] {
      SortedKeepsCount(s[1..], v);
      InsertAscending(s[0], Sorted(s[1..]));
      InsertKeepsCount(s[0], Sorted(s[1..]), v);
    }
  }

  lemma {:induction false} CountBound(s: seq<int>, v: int)
    ensures CountAtLeast(s, v) <= |s|
  {
    if s != [] { CountBound(s[1..], v); }
  }

  /** In an ascending sequence everything from position k on reaches s[k], and nothing above
      s[k] is reached by more than what follows it. */
  lemma {:induction false} CountInAscending(s: seq<int>, k: nat, v: int)
    requires Ascending(s) && k < |s|
    ensures v <= s[k] ==> CountAtLeast(s, v) >= |s| - k
    ensures v > s[k] ==> CountAtLeast(s, v) <= |s| - k - 1
  {
    if k == 0 {
      if v <= s[0] { AllAtLeast(s, v); } else { CountBound(s[1..], v); }
    } else {
      CountInAscending(s[1..], k - 1, v);
    }
  }

  lemma {:induction false} AllAtLeast(s: seq<int>, v: int)
    requires forall i :: 0 <= i < |s| ==> s[i] >= v
    ensures CountAtLeast(s, v) == |s|
  {
    if s != [] { AllAtLeast(s[1..], v); }
  }

  /** The sorted pick is the greatest index that at least a majority of the members reach. */
  lemma MajorityIndexIsGreatest(idxs: seq<int>, v: int)
    requires idxs != []
    ensures v <= MajorityIndex(idxs) <==> CountAtLeast(idxs, v) >= Majority(|idxs|)
  {
    SortedKeepsCount(idxs, v);
    CountInAscending(Sorted(idxs), |idxs| - Majority(|idxs|), v);
  }

  /** The pick is one of the members' indexes. */
  lemma MajorityIndexIsMember(idxs: seq<int>)
    requires idxs != []
    ensures MajorityIndex(idxs) in idxs
  {
    SortedElements(idxs);
  }

  lemma {:induction false} SortedElements(s: seq<int>)
    ensures Ascending(Sorted(s))
    ensures forall y :: y in Sorted(s) <==> y in s
  {
    if s != [] {
      SortedElements(s[1..]);
      InsertAscending(s[0], Sorted(s[1..]));
      assert s == [s[0]] + s[1..];
    }
  }

  /** Any two majorities of one set of members share a member. */
  lemma MajoritiesMeet<T>(members: set<T>, a: set<T>, b: set<T>) returns (common: T)
    requires a <= members && b <= members
    requires |a| >= Majority(|members|) && |b| >= Majority(|members|)
    ensures common in a && common in b
  {
    if a * b == {} {
      assert |a + b| == |a| + |b|;
      SubsetSize(a + b, members);
      assert false;
    }
    common :| common in a * b;
  }

  lemma {:induction false} SubsetSize<T>(a: set<T>, b: set<T>)
    requires a <= b
    ensures |a| <= |b|
    decreases a
  {
    if a != {} {
      var x :| x in a;
      SubsetSize(a - {x}, b - {x});
    }
  }
}
