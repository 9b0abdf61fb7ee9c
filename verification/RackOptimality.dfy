/**
 Why filling the fullest racks first is best: among all ways to take k GPUs, a prefix of the
 rack-by-rack order, fullest rack first, touches the fewest racks and crosses racks least often
 around a ring. GPUs are represented by the rack each one sits in.
 */
module RackOptimality {

  /** The racks of a sequence of GPUs. */
  ghost function RackSet(racks: seq<nat>): set<nat> {
    set i | 0 <= i < |racks| :: racks[i]
  }

  /** The next rank around a ring of n. */
  function Successor(i: nat, n: nat): (next: nat)
    requires i < n
    ensures next == if i + 1 == n then 0 else i + 1
  {
    (i + 1) % n
  }

  /** The ring edge from rank i leads into another rack. */
  predicate Crosses(racks: seq<nat>, i: nat)
    requires i < |racks|
  {
    racks[i] != racks[Successor(i, |racks|)]
  }

  /** The ranks whose ring edge crosses racks. */
  ghost function Crossings(racks: seq<nat>): set<nat> {
    set i | 0 <= i < |racks| && Crosses(racks, i)
  }

  /** Equal racks are adjacent. */
  ghost predicate Contiguous(racks: seq<nat>) {
    forall i, j, l :: 0 <= i < j < l < |racks| && racks[i] == racks[l] ==> racks[j] == racks[i]
  }

  /** Fuller racks come first. */
  ghost predicate FullestFirst(racks: seq<nat>) {
    forall i, j :: 0 <= i < j < |racks| ==> multiset(racks)[racks[i]] >= multiset(racks)[racks[j]]
  }

  // Counting over a set of racks

  ghost function Holds(held: multiset<nat>, racks: set<nat>): nat
    decreases |racks|
  {
    if racks == {} then 0
    else var r :| r in racks; held[r] + Holds(held, racks - {r})
  }

  lemma {:induction false} HoldsWithout(held: multiset<nat>, racks: set<nat>, r: nat)
    requires r in racks
    ensures Holds(held, racks) == held[r] + Holds(held, racks - {r})
    decreases |racks|
  {
    var first :| first in racks && Holds(held, racks) == held[first] + Holds(held, racks - {first});
    if first != r {
      HoldsWithout(held, racks - {first}, r);
      HoldsWithout(held, racks - {r}, first);
      assert racks - {first} - {r} == racks - {r} - {first};
    }
  }

  lemma {:induction false} HoldsSplit(held: multiset<nat>, a: set<nat>, b: set<nat>)
    requires a !! b
    ensures Holds(held, a + b) == Holds(held, a) + Holds(held, b)
    decreases |a|
  {
    if a == {} {
      assert a + b == b;
    } else {
      var r :| r in a;
      HoldsWithout(held, a, r);
      HoldsWithout(held, a + b, r);
      HoldsSplit(held, a - {r}, b);
      assert a + b - {r} == (a - {r}) + b;
    }
  }

  lemma {:induction false} HoldsAtMost(held: multiset<nat>, racks: set<nat>, c: nat)
    requires forall r :: r in racks ==> held[r] <= c
    ensures Holds(held, racks) <= |racks| * c
    decreases |racks|
  {
    if racks != {} {
      var r :| r in racks;
      HoldsWithout(held, racks, r);
      HoldsAtMost(held, racks - {r}, c);
      assert |racks| * c == (|racks| - 1) * c + c;
    }
  }

  lemma {:induction false} HoldsAtLeast(held: multiset<nat>, racks: set<nat>, c: nat)
    requires forall r :: r in racks ==> held[r] >= c
    ensures Holds(held, racks) >= |racks| * c
    decreases |racks|
  {
    if racks != {} {
      var r :| r in racks;
      HoldsWithout(held, racks, r);
      HoldsAtLeast(held, racks - {r}, c);
      assert |racks| * c == (|racks| - 1) * c + c;
    }
  }

  lemma {:induction false} HoldsMonotone(a: multiset<nat>, b: multiset<nat>, racks: set<nat>)
    requires forall r :: r in racks ==> a[r] <= b[r]
    ensures Holds(a, racks) <= Holds(b, racks)
    decreases |racks|
  {
    if racks != {} {
      var r :| r in racks;
      HoldsWithout(a, racks, r);
      HoldsWithout(b, racks, r);
      HoldsMonotone(a, b, racks - {r});
    }
  }

  lemma {:induction false} HoldsPlus(a: multiset<nat>, x: nat, racks: set<nat>)
    ensures Holds(a + multiset{x}, racks) == Holds(a, racks) + (if x in racks then 1 else 0)
    decreases |racks|
  {
    if racks != {} {
      var r :| r in racks;
      HoldsWithout(a, racks, r);
      HoldsWithout(a + multiset{x}, racks, r);
      HoldsPlus(a, x, racks - {r});
    }
  }

  /** A sequence holds no more than its length in any set of racks, and all of it in a set that covers it. */
  lemma {:induction false} HoldsOfSequence(s: seq<nat>, racks: set<nat>)
    ensures Holds(multiset(s), racks) <= |s|
    ensures (forall i :: 0 <= i < |s| ==> s[i] in racks) ==> Holds(multiset(s), racks) == |s|
  {
    if s == [] {
      HoldsAtMost(multiset(s), racks, 0);
    } else {
      var last := |s| - 1;
      assert s == s[..last] + [s[last]];
      HoldsOfSequence(s[..last], racks);
      HoldsPlus(multiset(s[..last]), s[last], racks);
    }
  }

  // Fewest racks

  /** A rack other than the last one taken lies wholly before it. */
  lemma TakenWhole(order: seq<nat>, k: nat, i: nat)
    requires Contiguous(order) && 0 < k <= |order| && i < k && order[i] != order[k - 1]
    ensures multiset(order)[order[i]] == multiset(order[..k - 1])[order[i]]
  {
    var r := order[i];
    assert order == order[..k - 1] + order[k - 1..];
    assert forall l :: k - 1 <= l < |order| ==> order[l] != r;
    assert r !in order[k - 1..];
  }

  lemma ScaleDown(a: nat, b: nat, c: nat)
    requires a <= b
    ensures a * c <= b * c
  {
  }

  /** Racks that are not taken before the last one hold no more than those that are. */
  lemma NoBetterRacks(held: multiset<nat>, taken: set<nat>, other: set<nat>, c: nat)
    requires |other| <= |taken|
    requires forall r :: r in taken ==> held[r] >= c
    requires forall r :: r !in taken ==> held[r] <= c
    ensures Holds(held, other) <= Holds(held, taken)
  {
    hide Holds;
    var both, ours, theirs := taken * other, taken - other, other - taken;
    HoldsSplit(held, both, ours);
    HoldsSplit(held, both, theirs);
    assert both + ours == taken && both + theirs == other;
    HoldsAtLeast(held, ours, c);
    HoldsAtMost(held, theirs, c);
    assert |ours| == |taken| - |both| && |theirs| == |other| - |both|;
    ScaleDown(|theirs|, |ours|, c);
  }

  /** So few racks cannot hold k GPUs. */
  lemma TooFewRacks(order: seq<nat>, k: nat, other: set<nat>)
    requires Contiguous(order) && FullestFirst(order) && 0 < k <= |order|
    requires |other| < |RackSet(order[..k])|
    ensures Holds(multiset(order), other) < k
  {
    hide Holds;
    var held, last := multiset(order), order[k - 1];
    var taken := RackSet(order[..k]) - {last};
    assert order[..k][k - 1] == last && last in RackSet(order[..k]);
    forall r | r in taken ensures held[r] >= held[last] && held[r] <= multiset(order[..k - 1])[r] {
      var i :| 0 <= i < k && order[..k][i] == r;
      TakenWhole(order, k, i);
    }
    forall r | r !in taken ensures held[r] <= held[last] {
      UntakenIsSmaller(order, k, r);
    }
    NoBetterRacks(held, taken, other, held[last]);
    HoldsMonotone(held, multiset(order[..k - 1]), taken);
    HoldsOfSequence(order[..k - 1], taken);
  }

  /** The first k of a rack-by-rack order, fullest rack first, touch as few racks as any k can. */
  lemma FewestRacks(order: seq<nat>, k: nat, other: seq<nat>)
    requires Contiguous(order) && FullestFirst(order) && 0 < k <= |order|
    requires |other| == k && multiset(other) <= multiset(order)
    ensures |RackSet(order[..k])| <= |RackSet(other)|
  {
    hide Holds, Contiguous, FullestFirst;
    HoldsMonotone(multiset(other), multiset(order), RackSet(other));
    HoldsOfSequence(other, RackSet(other));
    if |RackSet(other)| < |RackSet(order[..k])| {
      TooFewRacks(order, k, RackSet(other));
    }
  }

  lemma UntakenIsSmaller(order: seq<nat>, k: nat, r: nat)
    requires FullestFirst(order) && 0 < k <= |order| && r !in RackSet(order[..k]) - {order[k - 1]}
    ensures multiset(order)[r] <= multiset(order)[order[k - 1]]
  {
    if r in order && r != order[k - 1] {
      var l :| 0 <= l < |order| && order[l] == r;
      TakenIsIn(order, k, l);
      assert k <= l;
    }
  }

  lemma TakenIsIn(order: seq<nat>, k: nat, l: nat)
    requires k <= |order|
    ensures l < k ==> order[l] in RackSet(order[..k])
  {
    if l < k {
      assert order[..k][l] == order[l];
    }
  }

  // Fewest crossings

  ghost function RacksAt(racks: seq<nat>, at: set<nat>): set<nat>
    requires forall i :: i in at ==> i < |racks|
  {
    set i | i in at :: racks[i]
  }

  lemma {:induction false} ImageSize(racks: seq<nat>, at: set<nat>)
    requires forall i :: i in at ==> i < |racks|
    ensures |RacksAt(racks, at)| <= |at|
    ensures (forall i, j :: i in at && j in at && i != j ==> racks[i] != racks[j]) ==> |RacksAt(racks, at)| == |at|
    decreases |at|
  {
    if at != {} {
      var i :| i in at;
      ImageSize(racks, at - {i});
      var rest := RacksAt(racks, at - {i});
      assert RacksAt(racks, at) == rest + {racks[i]};
      if forall a, b :: a in at && b in at && a != b ==> racks[a] != racks[b] {
        assert racks[i] !in rest;
      }
    }
  }

  /** On a contiguous ring every rack is left at most once. */
  lemma FewCrossings(racks: seq<nat>)
    requires Contiguous(racks) && racks != []
    ensures |Crossings(racks)| <= |RackSet(racks)|
    ensures |RackSet(racks)| == 1 ==> |Crossings(racks)| == 0
  {
    var at := Crossings(racks);
    forall i, j | i in at && j in at && i < j ensures racks[i] != racks[j] {
      LeftForGood(racks, i, j);
    }
    hide Contiguous, Crosses;
    ImageSize(racks, at);
    assert RacksAt(racks, at) <= RackSet(racks);
    Smaller(RacksAt(racks, at), RackSet(racks));
    if |RackSet(racks)| == 1 {
      OneRackCrossesNone(racks);
    }
  }

  lemma LeftForGood(racks: seq<nat>, i: nat, j: nat)
    requires Contiguous(racks) && i < j < |racks| && Crosses(racks, i)
    ensures racks[i] != racks[j]
  {
  }

  lemma OneRackCrossesNone(racks: seq<nat>)
    requires |RackSet(racks)| == 1
    ensures Crossings(racks) == {}
  {
    var r :| r in RackSet(racks);
    OnlyOne(RackSet(racks), r);
    assert forall i :: 0 <= i < |racks| ==> racks[i] in RackSet(racks);
  }

  lemma OnlyOne(s: set<nat>, r: nat)
    requires |s| == 1 && r in s
    ensures forall x :: x in s ==> x == r
  {
    assert |s - {r}| == 0;
    assert s == {r} + (s - {r});
  }

  lemma Smaller(a: set<nat>, b: set<nat>)
    requires a <= b
    ensures |a| <= |b|
  {
    assert |b - a| == |b| - |a|;
  }

  /** A ring over two or more racks leaves each of them at least once. */
  lemma EachRackIsLeft(racks: seq<nat>)
    requires |RackSet(racks)| >= 2
    ensures |RackSet(racks)| <= |Crossings(racks)|
  {
    var at := Crossings(racks);
    forall r | r in RackSet(racks) ensures r in RacksAt(racks, at) {
      var i :| 0 <= i < |racks| && racks[i] == r;
      LeavesOnce(racks, r, i);
    }
    assert RackSet(racks) <= RacksAt(racks, at);
    Smaller(RackSet(racks), RacksAt(racks, at));
    ImageSize(racks, at);
  }

  lemma LeavesOnce(racks: seq<nat>, r: nat, i: nat)
    requires i < |racks| && racks[i] == r && |RackSet(racks)| >= 2
    ensures exists j :: j in Crossings(racks) && racks[j] == r
  {
    if forall j :: 0 <= j < |racks| && racks[j] == r ==> !Crosses(racks, j) {
      Stays(racks, r, i, |racks| - 1);
      assert !Crosses(racks, |racks| - 1);
      forall m: nat | m < |racks| ensures racks[m] == r {
        Stays(racks, r, 0, m);
      }
      assert RackSet(racks) <= {r};
      Smaller(RackSet(racks), {r});
    } else {
      var j :| 0 <= j < |racks| && racks[j] == r && Crosses(racks, j);
      assert j in Crossings(racks);
    }
  }

  /** A rack that is never left fills the rest of the ring. */
  lemma {:induction false} Stays(racks: seq<nat>, r: nat, i: nat, m: nat)
    requires i <= m < |racks| && racks[i] == r
    requires forall j :: 0 <= j < |racks| && racks[j] == r ==> !Crosses(racks, j)
    ensures racks[m] == r
  {
    if i < m {
      Stays(racks, r, i, m - 1);
      assert !Crosses(racks, m - 1);
    }
  }

  /** The same prefix also crosses racks as rarely as any k GPUs in any rank order can. */
  lemma FewestCrossings(order: seq<nat>, k: nat, other: seq<nat>)
    requires Contiguous(order) && FullestFirst(order) && 0 < k <= |order|
    requires |other| == k && multiset(other) <= multiset(order)
    ensures |Crossings(order[..k])| <= |Crossings(other)|
  {
    var ours := order[..k];
    FewestRacks(order, k, other);
    FewCrossings(ours);
    assert other[0] in RackSet(other) && ours[0] in RackSet(ours);
    if |RackSet(other)| >= 2 {
      EachRackIsLeft(other);
    } else {
      assert |RackSet(ours)| == 1;
    }
  }
}
