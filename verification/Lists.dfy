/** Lists without repetition, shared by the scheduler, the timers and the capabilities. */
module Lists {

  /** The list without the first occurrence of `x`, as a node is unlinked. */
  function Without<T(==)>(list: seq<T>, x: T): (r: seq<T>) {
    if list == [] then [] else if list[0] == x then list[1..] else [list[0]] + Without(list[1..], x)
  }

  predicate Distinct<T(==)>(list: seq<T>) {
    forall i, j | 0 <= i < j < |list| :: list[i] != list[j]
  }

  lemma {:induction false} WithoutMembers<T(!new)>(list: seq<T>, x: T)
    requires Distinct(list)
    ensures forall u :: u in Without(list, x) <==> u in list && u != x
    ensures x in list ==> |Without(list, x)| == |list| - 1
  {
    if list != [] {
      assert list == [list[0]] + list[1..];
      if list[0] != x { WithoutMembers(list[1..], x); }
    }
  }

  lemma {:induction false} WithoutDistinct<T(!new)>(list: seq<T>, x: T)
    requires Distinct(list)
    ensures Distinct(Without(list, x))
  {
    if list != [] && list[0] != x {
      WithoutDistinct(list[1..], x);
      WithoutMembers(list[1..], x);
      var w := Without(list[1..], x);
      assert list[0] !in list[1..];
      assert forall k | 0 <= k < |w| :: w[k] in w;
    }
  }

  lemma {:induction false} WithoutAbsent<T>(list: seq<T>, x: T)
    requires x !in list
    ensures Without(list, x) == list
  {
    if list != [] { WithoutAbsent(list[1..], x); }
  }

  lemma {:induction false} WithoutShorter<T>(list: seq<T>, x: T)
    ensures |Without(list, x)| <= |list|
  {
    if list != [] && list[0] != x { WithoutShorter(list[1..], x); }
  }

  lemma {:induction false} WithoutAt<T>(list: seq<T>, k: nat)
    requires Distinct(list) && k < |list|
    ensures Without(list, list[k]) == list[..k] + list[k + 1..]
  {
    if k > 0 {
      assert list[1..][k - 1] == list[k] != list[0];
      WithoutAt(list[1..], k - 1);
      assert list[..k] + list[k + 1..] == [list[0]] + (list[1..][..k - 1] + list[1..][k..]);
    }
  }

  /** `after` is `before` without one occurrence of `x`; the others keep their order. */
  ghost predicate Dropped<T>(before: seq<T>, after: seq<T>, x: T) {
    exists k | 0 <= k < |before| :: before[k] == x && after == before[..k] + before[k + 1..]
  }

  lemma WithoutDrops<T>(list: seq<T>, x: T)
    requires x in list
    ensures Dropped(list, Without(list, x), x)
  {
    var k := FirstPlace(list, x);
  }

  lemma {:induction false} FirstPlace<T>(list: seq<T>, x: T) returns (k: nat)
    requires x in list
    ensures k < |list| && list[k] == x && Without(list, x) == list[..k] + list[k + 1..]
  {
    if list[0] == x {
      k := 0;
    } else {
      var j := FirstPlace(list[1..], x);
      k := j + 1;
      TailCut(list, j);
    }
  }

  lemma TailCut<T>(list: seq<T>, j: nat)
    requires j + 1 < |list|
    ensures [list[0]] + (list[1..][..j] + list[1..][j + 1..]) == list[..j + 1] + list[j + 2..]
  {
  }
}
