/** Sequence operations behind the canvas object list and the layers array:
    JavaScript's indexOf/splice as the canvas library uses them, and slot swaps. */
module Sequences {

  /** No element occurs twice. */
  ghost predicate Distinct<T>(s: seq<T>) {
    forall i, j :: 0 <= i < j < |s| ==> s[i] != s[j]
  }

  /** Position of the first occurrence of `x` (indexOf on a present element). */
  function IndexOf<T(==)>(s: seq<T>, x: T): (k: nat)
    requires x in s
    ensures k < |s| && s[k] == x
    ensures forall j :: 0 <= j < k ==> s[j] != x
  {
    if s[0] == x then 0 else 1 + IndexOf(s[1..], x)
  }

  /** In a sequence without repetitions, the element at `i` is found at `i`. */
  lemma IndexOfDistinct<T>(s: seq<T>, i: nat)
    requires Distinct(s) && i < |s|
    ensures IndexOf(s, s[i]) == i
  {
  }

  /** The first occurrence of `x` taken out, the rest kept in order; `s` itself when
      `x` is absent (removeFromArray: indexOf, then splice(k, 1)). */
  function RemoveFirst<T(==)>(s: seq<T>, x: T): (r: seq<T>)
    ensures x !in s ==> r == s
    ensures x in s ==> |r| == |s| - 1
    ensures x in s ==> forall j {:trigger r[j]} :: 0 <= j < |r| ==>
              r[j] == if j < IndexOf(s, x) then s[j] else s[j + 1]
    ensures multiset(r) == multiset(s) - multiset{x}
  {
    if x in s then
      var k := IndexOf(s, x);
      assert s == s[..k] + [x] + s[k + 1..];
      s[..k] + s[k + 1..]
    else
      s
  }

  /** Removing an element from a sequence without repetitions leaves none, and removes it. */
  lemma RemoveFirstDistinct<T>(s: seq<T>, x: T)
    requires Distinct(s)
    ensures Distinct(RemoveFirst(s, x)) && x !in RemoveFirst(s, x)
  {
    var r := RemoveFirst(s, x);
    if x in s {
      var k := IndexOf(s, x);
      forall i, j | 0 <= i < j < |r| ensures r[i] != r[j] {
        var si := if i < k then i else i + 1;
        var sj := if j < k then j else j + 1;
        assert r[i] == s[si] && r[j] == s[sj] && si < sj;
      }
      forall j | 0 <= j < |r| ensures r[j] != x {
        var sj := if j < k then j else j + 1;
        assert r[j] == s[sj] && sj != k;
      }
    }
  }

  /** Removing `x` from a sequence without repetitions takes out exactly `x`: one element
      fewer, `x` gone, every other element still there. */
  lemma RemoveFirstKeepsOthers<T>(s: seq<T>, x: T)
    requires Distinct(s) && x in s
    ensures |RemoveFirst(s, x)| == |s| - 1 && x !in RemoveFirst(s, x)
    ensures forall y :: y in s && y != x ==> y in RemoveFirst(s, x)
  {
    RemoveFirstDistinct(s, x);
    var r := RemoveFirst(s, x);
    forall y | y in s && y != x ensures y in r {
      assert y in multiset(s);
      assert y in multiset(r);
    }
  }

  /** `x` inserted before position `k`, clamped to the end (splice(k, 0, x)). */
  function InsertAt<T>(s: seq<T>, k: nat, x: T): (r: seq<T>)
    ensures |r| == |s| + 1
    ensures var p := if k <= |s| then k else |s|;
            forall j {:trigger r[j]} :: 0 <= j < |r| ==> r[j] == if j < p then s[j] else if j == p then x else s[j - 1]
    ensures multiset(r) == multiset(s) + multiset{x}
  {
    var p := if k <= |s| then k else |s|;
    assert s == s[..p] + s[p..];
    s[..p] + [x] + s[p..]
  }

  /** Inserting a new element keeps a sequence free of repetitions. */
  lemma InsertAtDistinct<T>(s: seq<T>, k: nat, x: T)
    requires Distinct(s) && x !in s
    ensures Distinct(InsertAt(s, k, x))
  {
    var r := InsertAt(s, k, x);
    var p := if k <= |s| then k else |s|;
    forall i, j | 0 <= i < j < |r| ensures r[i] != r[j] {
      if i != p && j != p {
        var si := if i < p then i else i - 1;
        var sj := if j < p then j else j - 1;
        assert r[i] == s[si] && r[j] == s[sj] && si < sj;
      } else if i == p {
        assert r[j] == s[j - 1];
      } else {
        assert r[i] == s[i];
      }
    }
  }

  /** Slots `i` and `j` exchanged, every other slot as it was. */
  function Swap<T>(s: seq<T>, i: nat, j: nat): (r: seq<T>)
    requires i < |s| && j < |s|
    ensures |r| == |s| && r[i] == s[j] && r[j] == s[i]
    ensures forall k {:trigger r[k]} :: 0 <= k < |s| && k != i && k != j ==> r[k] == s[k]
    ensures multiset(r) == multiset(s)
  {
    s[i := s[j]][j := s[i]]
  }

  /** Moving the element at `i` one slot up by removal and re-insertion is the adjacent swap. */
  lemma {:induction false} MoveToNextIsSwap<T>(s: seq<T>, i: nat)
    requires Distinct(s) && i + 1 < |s|
    ensures InsertAt(RemoveFirst(s, s[i]), i + 1, s[i]) == Swap(s, i, i + 1)
  {
    IndexOfDistinct(s, i);
    var t := RemoveFirst(s, s[i]);
    var r := InsertAt(t, i + 1, s[i]);
    var w := Swap(s, i, i + 1);
    forall j | 0 <= j < |s| ensures r[j] == w[j] {
      if j < i {
        assert r[j] == t[j] == s[j];
      } else if j == i {
        assert r[j] == t[i] == s[i + 1];
      } else if j > i + 1 {
        assert r[j] == t[j - 1] == s[j];
      }
    }
  }

  /** Moving the element at `i` one slot down by removal and re-insertion is the adjacent swap. */
  lemma {:induction false} MoveToPreviousIsSwap<T>(s: seq<T>, i: nat)
    requires Distinct(s) && 0 < i < |s|
    ensures InsertAt(RemoveFirst(s, s[i]), i - 1, s[i]) == Swap(s, i, i - 1)
  {
    IndexOfDistinct(s, i);
    var t := RemoveFirst(s, s[i]);
    var r := InsertAt(t, i - 1, s[i]);
    var w := Swap(s, i, i - 1);
    forall j | 0 <= j < |s| ensures r[j] == w[j] {
      if j < i - 1 {
        assert r[j] == t[j] == s[j];
      } else if j == i {
        assert r[j] == t[i - 1] == s[i - 1];
      } else if j > i {
        assert r[j] == t[j - 1] == s[j];
      }
    }
  }
}
