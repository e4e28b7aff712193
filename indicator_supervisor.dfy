/**
 * The indicator supervisor: a FIFO wait queue of indicators not yet shown and
 * an active queue of indicators on screen, with overlap resolution on
 * promotion and z-ordering by descending horizontal origin.
 */
module IndicatorSupervision {
  import opened Common
  import opened Timers
  import opened IndicatorElements

  /** Every element occurs at most once. */
  predicate Unique(q: seq<IndicatorElement>)
  {
    forall i, j :: 0 <= i < j < |q| ==> q[i] != q[j]
  }

  /** No two different elements share the same origin. */
  ghost predicate DistinctOrigins(q: seq<IndicatorElement>)
    reads q
  {
    forall a, b :: a in q && b in q && a != b ==> a.xOrigin != b.xOrigin || a.yOrigin != b.yOrigin
  }

  /** Some element of `q` sits exactly at (x, y). */
  ghost predicate SharesOrigin(q: seq<IndicatorElement>, x: real, y: real)
    reads q
  {
    exists j :: 0 <= j < |q| && q[j].xOrigin == x && q[j].yOrigin == y
  }

  /** Every element of `q` is in a consistent state. */
  ghost predicate AllValid(q: seq<IndicatorElement>)
    reads q
  {
    forall e :: e in q ==> e.Valid()
  }

  /** The two queues' invariant: no repeats, no element in both, all consistent, no two active ones stacked. */
  ghost predicate QueuesValid(wait: seq<IndicatorElement>, active: seq<IndicatorElement>)
    reads wait, active
  {
    && Unique(wait) && Unique(active)
    && (forall e :: e in wait ==> e !in active)
    && AllValid(wait) && AllValid(active)
    && DistinctOrigins(active)
  }

  lemma UniqueTail(q: seq<IndicatorElement>)
    requires Unique(q) && q != []
    ensures Unique(q[1..]) && q[0] !in q[1..]
  {
    forall i, j | 0 <= i < j < |q[1..]|
      ensures q[1..][i] != q[1..][j]
    {
      assert q[1..][i] == q[i + 1] && q[1..][j] == q[j + 1];
    }
    forall j | 0 <= j < |q[1..]|
      ensures q[1..][j] != q[0]
    {
      assert q[1..][j] == q[j + 1];
    }
  }

  /** Dropping the front of the active queue keeps the invariant. */
  lemma DropActiveFront(wait: seq<IndicatorElement>, active: seq<IndicatorElement>)
    requires QueuesValid(wait, active) && active != []
    ensures QueuesValid(wait, active[1..])
  {
    UniqueTail(active);
    assert forall e :: e in active[1..] ==> e in active;
  }

  /** Taking the front of the wait queue out keeps the invariant, and the front is in neither queue afterwards. */
  lemma DropWaitFront(wait: seq<IndicatorElement>, active: seq<IndicatorElement>)
    requires QueuesValid(wait, active) && wait != []
    ensures QueuesValid(wait[1..], active)
    ensures wait[0] !in wait[1..] && wait[0] !in active && wait[0].Valid()
  {
    UniqueTail(wait);
    assert wait[0] in wait;
    assert forall e :: e in wait[1..] ==> e in wait;
  }

  /** Appending an element found in neither queue, at a free origin, keeps the invariant. */
  lemma AppendActive(wait: seq<IndicatorElement>, active: seq<IndicatorElement>, e: IndicatorElement)
    requires QueuesValid(wait, active)
    requires e !in wait && e !in active && e.Valid() && !SharesOrigin(active, e.xOrigin, e.yOrigin)
    ensures QueuesValid(wait, active + [e])
  {
    var r := active + [e];
    forall i, j | 0 <= i < j < |r|
      ensures r[i] != r[j]
    {
      if j == |active| {
        assert r[i] == active[i];
      } else {
        assert r[i] == active[i] && r[j] == active[j];
      }
    }
    forall a, b | a in r && b in r && a != b
      ensures a.xOrigin != b.xOrigin || a.yOrigin != b.yOrigin
    {
      if a == e {
        var j :| 0 <= j < |active| && active[j] == b;
      } else if b == e {
        var j :| 0 <= j < |active| && active[j] == a;
      }
    }
  }

  /** Reordering the active queue keeps the invariant. */
  lemma ReorderActive(wait: seq<IndicatorElement>, active: seq<IndicatorElement>, r: seq<IndicatorElement>)
    requires QueuesValid(wait, active) && multiset(r) == multiset(active)
    ensures QueuesValid(wait, r)
  {
    UniquePermuted(active, r);
    assert forall e :: e in r <==> e in active by {
      forall e
        ensures e in r <==> e in active
      {
        assert e in r <==> e in multiset(r);
        assert e in active <==> e in multiset(active);
      }
    }
  }

  /** Draw order: right-most origin first. */
  ghost predicate SortedByDescendingX(q: seq<IndicatorElement>)
    reads q
  {
    forall i, j :: 0 <= i < j < |q| ==> q[i].xOrigin >= q[j].xOrigin
  }

  /** How far a promoted indicator is pushed right for each collision. */
  function Nudge(kind: IndicatorKind): (d: real)
    ensures d > 0.0
  {
    if kind == Damage then 1.0 else 15.0
  }

  /** `x` is `x0` pushed right by a whole number of nudges. */
  ghost predicate NudgedFrom(x0: real, x: real, kind: IndicatorKind)
  {
    var n := (x - x0) / Nudge(kind);
    n >= 0.0 && n == n.Floor as real
  }

  lemma NudgeOnce(x0: real, x: real, kind: IndicatorKind)
    requires NudgedFrom(x0, x, kind)
    ensures NudgedFrom(x0, x + Nudge(kind), kind)
  {
    var d := Nudge(kind);
    var n := (x - x0) / d;
    assert (x + d - x0) / d == n + 1.0;
    assert (n + 1.0).Floor == n.Floor + 1;
  }

  /** Two whole-nudge positions less than one nudge apart are the same position. */
  lemma NudgeGap(x0: real, x: real, x': real, kind: IndicatorKind)
    requires NudgedFrom(x0, x, kind) && NudgedFrom(x0, x', kind)
    requires x <= x' < x + Nudge(kind)
    ensures x' == x
  {
    var d := Nudge(kind);
    var n := (x - x0) / d;
    var n' := (x' - x0) / d;
    assert n <= n' < n + 1.0 by {
      if kind == Damage { assert d == 1.0; } else { assert d == 15.0; }
    }
    assert n'.Floor == n.Floor;
  }

  /**
   * `x` is the first position, a whole number of nudges right of `x0`, that no
   * indicator of `q` occupies on row `y`: every position skipped on the way
   * is occupied.
   */
  ghost predicate FirstFreeFrom(q: seq<IndicatorElement>, x0: real, x: real, y: real, kind: IndicatorKind)
    reads q
  {
    NudgedFrom(x0, x, kind) && !SharesOrigin(q, x, y) && SkippedOccupied(q, x0, x, y, kind)
  }

  /** Every whole-nudge position from `x0` up to (not including) `x` is occupied on row `y`. */
  ghost predicate SkippedOccupied(q: seq<IndicatorElement>, x0: real, x: real, y: real, kind: IndicatorKind)
    reads q
  {
    forall x' :: x0 <= x' < x && NudgedFrom(x0, x', kind) ==> SharesOrigin(q, x', y)
  }

  /** The states of a queue's indicators, in order. */
  ghost function StatesOf(q: seq<IndicatorElement>): (ss: seq<ElementState>)
    reads q
    ensures |ss| == |q| && forall j :: 0 <= j < |q| ==> ss[j] == q[j].State()
    decreases |q|
  {
    if q == [] then [] else [q[0].State()] + StatesOf(q[1..])
  }

  /**
   * The `j`-th indicator of `w`, promoted from state `before[j]`, was started
   * and took the first free position right of its origin among the
   * indicators of `base` and those of `w` promoted before it.
   */
  ghost predicate PromotedAt(base: seq<IndicatorElement>, w: seq<IndicatorElement>, before: seq<ElementState>, j: int)
    reads base, w
  {
    0 <= j < |w| && j < |before|
    && PromotedFrom(w[j], before[j])
    && FirstFreeFrom(base + w[..j], before[j].xOrigin, w[j].xOrigin, w[j].yOrigin, w[j].kind)
  }

  /** Every indicator of `w` was promoted in turn, as `PromotedAt` says. */
  ghost predicate PromotedInTurn(base: seq<IndicatorElement>, w: seq<IndicatorElement>, before: seq<ElementState>)
    reads base, w
  {
    |before| == |w| && forall j :: 0 <= j < |w| ==> PromotedAt(base, w, before, j)
  }

  /** Promoting one more indicator to the first free position extends the record. */
  lemma PromotedInTurnExtends(base: seq<IndicatorElement>, w: seq<IndicatorElement>, before: seq<ElementState>, e: IndicatorElement, s: ElementState)
    requires PromotedInTurn(base, w, before)
    requires PromotedFrom(e, s) && FirstFreeFrom(base + w, s.xOrigin, e.xOrigin, e.yOrigin, e.kind)
    ensures PromotedInTurn(base, w + [e], before + [s])
  {
    var w' := w + [e];
    forall j | 0 <= j < |w'|
      ensures PromotedAt(base, w', before + [s], j)
    {
      if j < |w| {
        assert PromotedAt(base, w, before, j);
        assert w'[..j] == w[..j] && w'[j] == w[j];
      } else {
        assert w'[..j] == w;
      }
    }
  }

  /** Nudging past an occupied position skips only occupied positions. */
  lemma SkipOccupied(q: seq<IndicatorElement>, x0: real, x: real, y: real, kind: IndicatorKind)
    requires NudgedFrom(x0, x, kind) && SharesOrigin(q, x, y) && SkippedOccupied(q, x0, x, y, kind)
    ensures SkippedOccupied(q, x0, x + Nudge(kind), y, kind)
  {
    forall x' | x0 <= x' < x + Nudge(kind) && NudgedFrom(x0, x', kind)
      ensures SharesOrigin(q, x', y)
    {
      if x' >= x {
        NudgeGap(x0, x, x', kind);
      }
    }
  }

  /** Number of indicators whose origin is at or right of `x`. */
  ghost function CountAtLeast(q: seq<IndicatorElement>, x: real): nat
    reads q
    decreases |q|
  {
    if q == [] then 0 else (if q[0].xOrigin >= x then 1 else 0) + CountAtLeast(q[1..], x)
  }

  lemma {:induction false} CountAtLeastAntitone(q: seq<IndicatorElement>, x: real, x': real)
    requires x <= x'
    ensures CountAtLeast(q, x') <= CountAtLeast(q, x)
    decreases |q|
  {
    if q != [] {
      CountAtLeastAntitone(q[1..], x, x');
    }
  }

  /** Pushing an overlapping indicator right strictly lowers the count: the overlap loop terminates. */
  lemma {:induction false} CountAtLeastDrops(q: seq<IndicatorElement>, j: int, d: real)
    requires 0 <= j < |q| && d > 0.0
    ensures CountAtLeast(q, q[j].xOrigin + d) < CountAtLeast(q, q[j].xOrigin)
    decreases |q|
  {
    var x := q[j].xOrigin;
    if j == 0 {
      CountAtLeastAntitone(q[1..], x, x + d);
    } else {
      CountAtLeastDrops(q[1..], j - 1, d);
    }
  }

  /** In a sequence without repeats, every element is counted at most once. */
  lemma {:induction false} UniqueCountsOnce(q: seq<IndicatorElement>, x: IndicatorElement)
    requires Unique(q)
    ensures multiset(q)[x] <= 1
    decreases |q|
  {
    if q != [] {
      assert q == [q[0]] + q[1..];
      assert Unique(q[1..]) by {
        forall i, j | 0 <= i < j < |q[1..]|
          ensures q[1..][i] != q[1..][j]
        {
          assert q[1..][i] == q[i + 1] && q[1..][j] == q[j + 1];
        }
      }
      UniqueCountsOnce(q[1..], x);
      if x == q[0] {
        assert x !in q[1..] by {
          forall j | 0 <= j < |q[1..]|
            ensures q[1..][j] != x
          {
            assert q[1..][j] == q[j + 1];
          }
        }
      }
    }
  }

  /** Reordering a sequence without repeats leaves it without repeats. */
  lemma UniquePermuted(q: seq<IndicatorElement>, r: seq<IndicatorElement>)
    requires Unique(q) && multiset(r) == multiset(q)
    ensures Unique(r)
  {
    forall i, j | 0 <= i < j < |r|
      ensures r[i] != r[j]
    {
      UniqueCountsOnce(q, r[j]);
      assert r == r[..j] + r[j..];
      assert multiset(r)[r[j]] == multiset(r[..j])[r[j]] + multiset(r[j..])[r[j]];
      assert r[j] in r[j..];
      assert r[i] in r[..j];
    }
  }

  /** One update took the indicator from state `before`. */
  ghost predicate Stepped(e: IndicatorElement, before: ElementState, elapsed: nat)
    reads e
  {
    StateValid(e.kind, before) && e.State() == Step(e.kind, before, elapsed)
  }

  /** Putting `e` just before the first element left of it keeps the order. */
  lemma InsertKeepsOrder(r: seq<IndicatorElement>, k: int, e: IndicatorElement)
    requires SortedByDescendingX(r) && 0 <= k <= |r|
    requires forall j :: 0 <= j < k ==> r[j].xOrigin >= e.xOrigin
    requires k < |r| ==> r[k].xOrigin < e.xOrigin
    ensures SortedByDescendingX(r[..k] + [e] + r[k..])
  {
    var s := r[..k] + [e] + r[k..];
    forall i, j | 0 <= i < j < |s|
      ensures s[i].xOrigin >= s[j].xOrigin
    {
      if j < k {
        assert s[i] == r[i] && s[j] == r[j];
      } else if j == k {
        assert s[i] == r[i] && s[j] == e;
      } else if i < k {
        assert s[i] == r[i] && s[j] == r[j - 1];
      } else if i == k {
        assert s[i] == e && s[j] == r[j - 1];
      } else {
        assert s[i] == r[i - 1] && s[j] == r[j - 1];
      }
    }
  }

  /** Insert into a list ordered by descending x origin, behind every element at or right of it. */
  method InsertByDescendingX(r: seq<IndicatorElement>, e: IndicatorElement) returns (s: seq<IndicatorElement>)
    requires SortedByDescendingX(r)
    ensures SortedByDescendingX(s)
    ensures multiset(s) == multiset(r) + multiset{e}
  {
    var k := 0;
    while k < |r| && r[k].xOrigin >= e.xOrigin
      invariant 0 <= k <= |r|
      invariant forall j :: 0 <= j < k ==> r[j].xOrigin >= e.xOrigin
    {
      k := k + 1;
    }
    InsertKeepsOrder(r, k, e);
    s := r[..k] + [e] + r[k..];
    assert r == r[..k] + r[k..];
  }

  /** The active queue's sort: ordered by descending x origin and a permutation of its input. */
  method SortByDescendingX(q: seq<IndicatorElement>) returns (r: seq<IndicatorElement>)
    ensures SortedByDescendingX(r)
    ensures multiset(r) == multiset(q)
  {
    r := [];
    var i := 0;
    while i < |q|
      invariant 0 <= i <= |q|
      invariant SortedByDescendingX(r)
      invariant multiset(r) == multiset(q[..i])
    {
      r := InsertByDescendingX(r, q[i]);
      assert q[..i + 1] == q[..i] + [q[i]];
      i := i + 1;
    }
    assert q[..i] == q;
  }

  /** Length of the longest prefix of expired indicators. */
  ghost function ExpiredPrefix(q: seq<IndicatorElement>): (k: nat)
    reads q
    ensures k <= |q|
    ensures forall j :: 0 <= j < k ==> q[j].IsExpired()
    ensures k < |q| ==> !q[k].IsExpired()
    decreases |q|
  {
    if q == [] || !q[0].IsExpired() then 0 else 1 + ExpiredPrefix(q[1..])
  }

  /** The expired prefix depends on the indicators' timers only. */
  twostate lemma {:induction false} ExpiredPrefixFramed(q: seq<IndicatorElement>)
    requires forall e :: e in q ==> e.timer == old(e.timer)
    ensures ExpiredPrefix(q) == old(ExpiredPrefix(q))
    decreases |q|
  {
    if q != [] {
      assert q[0] in q;
      assert forall e :: e in q[1..] ==> e in q;
      ExpiredPrefixFramed(q[1..]);
    }
  }

  /** What promotion leaves of a waiting indicator, given its state before. */
  ghost predicate PromotedFrom(e: IndicatorElement, before: ElementState)
    reads e
  {
    && e.timer == Started(IndicatorTime)
    && -MaxXForce <= e.xForce <= MaxXForce && e.yForce == InitialForce
    && e.xRelative == before.motion.xRelative && e.yRelative == before.motion.yRelative
    && e.alpha == before.alpha && e.secondAlpha == before.secondAlpha
    && NudgedFrom(before.xOrigin, e.xOrigin, e.kind)
  }

  class IndicatorSupervisor {
    var waitQueue: seq<IndicatorElement>
    var activeQueue: seq<IndicatorElement>

    ghost predicate Valid()
      reads this, waitQueue, activeQueue
    {
      QueuesValid(waitQueue, activeQueue)
    }

    constructor ()
      ensures Valid() && waitQueue == [] && activeQueue == []
    {
      waitQueue := [];
      activeQueue := [];
    }

    /** The destructor: every indicator in either queue is released. */
    method Dispose()
      modifies this
      ensures Valid() && waitQueue == [] && activeQueue == []
    {
      waitQueue := [];
      activeQueue := [];
    }

    method Enqueue(e: IndicatorElement)
      requires Valid() && e.Valid() && e !in waitQueue && e !in activeQueue
      modifies this
      ensures Valid()
      ensures waitQueue == old(waitQueue) + [e] && activeQueue == old(activeQueue)
    {
      var w := waitQueue + [e];
      forall i, j | 0 <= i < j < |w|
        ensures w[i] != w[j]
      {
        assert w[i] == waitQueue[i];
        if j < |waitQueue| {
          assert w[j] == waitQueue[j];
        }
      }
      waitQueue := w;
    }

    /** A damage number, unless nothing was dealt. */
    method AddDamageIndicator(x: real, y: real, amount: nat)
      requires Valid()
      modifies this
      ensures Valid() && activeQueue == old(activeQueue)
      ensures amount == 0 ==> waitQueue == old(waitQueue)
      ensures amount > 0 ==> exists e: IndicatorElement ::
        && fresh(e) && waitQueue == old(waitQueue) + [e]
        && e.kind == Damage && e.visual == NumberText(amount) && e.xOrigin == x && e.yOrigin == y
        && e.timer.IsInitial()
    {
      if amount == 0 {
        return;
      }
      var e := new IndicatorElement(x, y, Damage, NumberText(amount));
      Enqueue(e);
    }

    /** A healing number, unless nothing was healed. */
    method AddHealingIndicator(x: real, y: real, amount: nat)
      requires Valid()
      modifies this
      ensures Valid() && activeQueue == old(activeQueue)
      ensures amount == 0 ==> waitQueue == old(waitQueue)
      ensures amount > 0 ==> exists e: IndicatorElement ::
        && fresh(e) && waitQueue == old(waitQueue) + [e]
        && e.kind == Healing && e.visual == NumberText(amount) && e.xOrigin == x && e.yOrigin == y
        && e.timer.IsInitial()
    {
      if amount == 0 {
        return;
      }
      var e := new IndicatorElement(x, y, Healing, NumberText(amount));
      Enqueue(e);
    }

    method AddMissIndicator(x: real, y: real)
      requires Valid()
      modifies this
      ensures Valid() && activeQueue == old(activeQueue)
      ensures exists e: IndicatorElement ::
        && fresh(e) && waitQueue == old(waitQueue) + [e]
        && e.kind == Text && e.visual == MissText && e.xOrigin == x && e.yOrigin == y
        && e.timer.IsInitial()
    {
      var e := new IndicatorElement(x, y, Text, MissText);
      Enqueue(e);
    }

    method AddStatusIndicator(x: real, y: real, status: nat, oldIntensity: int, newIntensity: int)
      requires Valid()
      modifies this
      ensures Valid() && activeQueue == old(activeQueue)
      ensures exists e: IndicatorElement ::
        && fresh(e) && waitQueue == old(waitQueue) + [e]
        && (e.kind, e.visual) == StatusIndicatorFor(status, oldIntensity, newIntensity)
        && e.xOrigin == x && e.yOrigin == y && e.timer.IsInitial()
    {
      var e: IndicatorElement;
      if oldIntensity == newIntensity {
        e := new IndicatorElement(x, y, PositiveStatusEffect, StatusIcon(status, newIntensity));
      } else {
        var kind := if oldIntensity <= newIntensity then PositiveStatusEffect else NegativeStatusEffect;
        e := new IndicatorElement(x, y, kind, BlendedStatusIcons(status, oldIntensity, newIntensity));
      }
      Enqueue(e);
    }

    method AddItemIndicator(x: real, y: real, item: nat)
      requires Valid()
      modifies this
      ensures Valid() && activeQueue == old(activeQueue)
      ensures exists e: IndicatorElement ::
        && fresh(e) && waitQueue == old(waitQueue) + [e]
        && e.kind == Item && e.visual == ItemIcon(item) && e.xOrigin == x && e.yOrigin == y
        && e.timer.IsInitial()
    {
      var e := new IndicatorElement(x, y, Item, ItemIcon(item));
      Enqueue(e);
    }

    /**
     * If some active indicator sits exactly at the element's origin, push the
     * element right (by 1 for damage numbers, 15 otherwise) and report it.
     */
    method FixPotentialIndicatorOverlapping(element: IndicatorElement?) returns (moved: bool)
      modifies element
      ensures element == null ==> !moved
      ensures element != null ==> (moved <==> old(SharesOrigin(activeQueue, element.xOrigin, element.yOrigin)))
      ensures element != null ==> element.xOrigin == old(element.xOrigin) + (if moved then Nudge(element.kind) else 0.0)
      ensures element != null ==> element.State() == old(element.State()).(xOrigin := element.xOrigin)
    {
      if element == null {
        return false;
      }
      var overlapped: IndicatorElement? := null;
      var i := 0;
      while i < |activeQueue|
        invariant 0 <= i <= |activeQueue|
        invariant forall j :: 0 <= j < i ==> !(activeQueue[j].xOrigin == element.xOrigin && activeQueue[j].yOrigin == element.yOrigin)
      {
        if activeQueue[i].xOrigin == element.xOrigin && activeQueue[i].yOrigin == element.yOrigin {
          overlapped := activeQueue[i];
          break;
        }
        i := i + 1;
      }
      if overlapped == null {
        return false;
      }
      if element.kind == Damage {
        element.xOrigin := element.xOrigin + 1.0;
      } else {
        element.xOrigin := element.xOrigin + 15.0;
      }
      return true;
    }

    /** Step 1 of Update: tick every active indicator. */
    method UpdateActive(elapsed: nat)
      requires Valid()
      modifies activeQueue
      ensures Valid()
      ensures forall e :: e in activeQueue ==> Stepped(e, old(e.State()), elapsed)
      ensures unchanged(waitQueue)
    {
      var i := 0;
      while i < |activeQueue|
        invariant 0 <= i <= |activeQueue|
        invariant forall j :: 0 <= j < i ==> Stepped(activeQueue[j], old(activeQueue[j].State()), elapsed)
        invariant forall j :: i <= j < |activeQueue| ==> activeQueue[j].State() == old(activeQueue[j].State())
        invariant AllValid(activeQueue)
        invariant forall j :: 0 <= j < |activeQueue| ==> activeQueue[j].xOrigin == old(activeQueue[j].xOrigin)
        invariant forall x :: x in waitQueue ==> x !in activeQueue
        invariant unchanged(waitQueue)
      {
        var e := activeQueue[i];
        assert e !in waitQueue;
        e.Update(elapsed);
        i := i + 1;
      }
    }

    /** Step 2 of Update: drop expired indicators from the front, stopping at the first live one. */
    method RemoveExpired()
      requires Valid()
      modifies this
      ensures Valid()
      ensures waitQueue == old(waitQueue)
      ensures activeQueue == old(activeQueue)[ExpiredPrefix(old(activeQueue))..]
    {
      ghost var k := 0;
      while |activeQueue| > 0
        invariant 0 <= k <= ExpiredPrefix(old(activeQueue))
        invariant activeQueue == old(activeQueue)[k..]
        invariant waitQueue == old(waitQueue)
        invariant Valid()
        decreases |activeQueue|
      {
        if activeQueue[0].IsExpired() {
          DropActiveFront(waitQueue, activeQueue);
          activeQueue := activeQueue[1..];
          k := k + 1;
        } else {
          break;
        }
      }
    }

    /** Start one waiting indicator and push it right until its origin is free of active ones. */
    method Place(e: IndicatorElement)
      requires e.Valid() && e !in activeQueue
      modifies e
      ensures e.Valid()
      ensures !SharesOrigin(activeQueue, e.xOrigin, e.yOrigin)
      ensures PromotedFrom(e, old(e.State()))
      ensures FirstFreeFrom(activeQueue, old(e.xOrigin), e.xOrigin, e.yOrigin, e.kind)
    {
      ghost var q := activeQueue;
      e.Start();
      while true
        invariant e.Valid()
        invariant PromotedFrom(e, old(e.State()))
        invariant e !in q
        invariant SkippedOccupied(q, old(e.xOrigin), e.xOrigin, e.yOrigin, e.kind)
        decreases CountAtLeast(q, e.xOrigin)
      {
        ghost var x := e.xOrigin;
        var moved := FixPotentialIndicatorOverlapping(e);
        if !moved {
          break;
        }
        ghost var j :| 0 <= j < |q| && q[j].xOrigin == x && q[j].yOrigin == e.yOrigin;
        CountAtLeastDrops(q, j, Nudge(e.kind));
        NudgeOnce(old(e.xOrigin), x, e.kind);
        SkipOccupied(q, old(e.xOrigin), x, e.yOrigin, e.kind);
      }
    }

    /** Promote the front of the wait queue: start it, free its origin, append it to the active queue. */
    method PromoteFront(ghost base: seq<IndicatorElement>, ghost done: seq<IndicatorElement>, ghost before: seq<ElementState>)
      requires Valid() && waitQueue != []
      requires activeQueue == base + done && PromotedInTurn(base, done, before)
      modifies this, waitQueue[0]
      ensures Valid()
      ensures waitQueue == old(waitQueue)[1..]
      ensures activeQueue == old(activeQueue) + [old(waitQueue)[0]]
      ensures PromotedFrom(old(waitQueue)[0], old(waitQueue[0].State()))
      ensures FirstFreeFrom(old(activeQueue), old(waitQueue[0].xOrigin), old(waitQueue)[0].xOrigin, old(waitQueue)[0].yOrigin, old(waitQueue)[0].kind)
      ensures PromotedInTurn(base, done + [old(waitQueue)[0]], before + [old(waitQueue[0].State())])
      ensures unchanged(base) && unchanged(waitQueue)
    {
      var e := waitQueue[0];
      DropWaitFront(waitQueue, activeQueue);
      Place(e);
      assert PromotedInTurn(base, done, before) by {
        assert forall o :: o in base + done ==> o != e;
      }
      PromotedInTurnExtends(base, done, before, e, old(e.State()));
      AppendActive(waitQueue[1..], activeQueue, e);
      activeQueue := activeQueue + [e];
      waitQueue := waitQueue[1..];
    }

    /** Step 3 of Update: move the whole wait queue, in order, to the back of the active queue. */
    method PromoteWaiting() returns (mustSort: bool)
      requires Valid()
      modifies this, waitQueue
      ensures Valid()
      ensures waitQueue == []
      ensures activeQueue == old(activeQueue) + old(waitQueue)
      ensures unchanged(old(activeQueue))
      ensures mustSort <==> |old(waitQueue)| > 0
      ensures PromotedInTurn(old(activeQueue), old(waitQueue), old(StatesOf(waitQueue)))
    {
      mustSort := false;
      ghost var base := activeQueue;
      ghost var w := waitQueue;
      ghost var ss := StatesOf(waitQueue);
      assert Unique(w);
      ghost var n := 0;
      while |waitQueue| > 0
        invariant 0 <= n <= |w|
        invariant waitQueue == w[n..]
        invariant activeQueue == base + w[..n]
        invariant mustSort <==> n > 0
        invariant Valid()
        invariant unchanged(base)
        invariant unchanged(waitQueue)
        invariant PromotedInTurn(base, w[..n], ss[..n])
        decreases |waitQueue|
      {
        assert waitQueue[0] == w[n] && w[n] in w && ss[n] == w[n].State();
        PromoteFront(base, w[..n], ss[..n]);
        AppendNext(base, w, n);
        PrefixGrows(w, n);
        PrefixGrows(ss, n);
        mustSort := true;
        n := n + 1;
      }
      assert w[..n] == w && ss[..n] == ss;
    }

    /** Re-order the active queue for drawing, right-most origin first. */
    method SortActive()
      requires Valid()
      modifies this
      ensures Valid()
      ensures waitQueue == old(waitQueue)
      ensures multiset(activeQueue) == multiset(old(activeQueue))
      ensures SortedByDescendingX(activeQueue)
    {
      var sorted := SortByDescendingX(activeQueue);
      ReorderActive(waitQueue, activeQueue, sorted);
      activeQueue := sorted;
    }

    /** Steps 2 to 4 of Update: everything after the ticking, which moves no indicator but the waiting ones. */
    method Rearrange()
      requires Valid()
      modifies this, waitQueue
      ensures Valid()
      ensures waitQueue == []
      ensures forall e :: e in old(activeQueue) ==> unchanged(e)
      ensures PromotedInTurn(old(activeQueue)[ExpiredPrefix(old(activeQueue))..], old(waitQueue), old(StatesOf(waitQueue)))
      ensures multiset(activeQueue) == multiset(old(activeQueue)[ExpiredPrefix(old(activeQueue))..] + old(waitQueue))
      ensures |old(waitQueue)| > 0 ==> SortedByDescendingX(activeQueue)
      ensures |old(waitQueue)| == 0 ==> activeQueue == old(activeQueue)[ExpiredPrefix(old(activeQueue))..]
    {
      ghost var active0 := activeQueue;
      ghost var k := ExpiredPrefix(active0);
      RemoveExpired();
      assert unchanged(active0);
      label removed:
      ghost var wait0 := waitQueue;
      assert forall e :: e in active0 ==> e !in wait0;
      assert StatesOf(wait0) == old(StatesOf(waitQueue));
      var mustSort := PromoteWaiting();
      assert PromotedInTurn(active0[k..], wait0, old(StatesOf(waitQueue)));
      forall e | e in active0
        ensures unchanged@removed(e)
      {
        assert e !in wait0;
      }
      if mustSort {
        SortActive();
      }
      assert forall e :: e in active0 ==> unchanged(e);
      ExpiredPrefixFramed(active0);
      assert PromotedInTurn(active0[k..], wait0, old(StatesOf(waitQueue)));
    }

    /**
     * One frame: tick the active indicators, drop expired ones from the
     * front, promote every waiting indicator, then re-sort by descending x
     * origin if anything was promoted.
     */
    method Update(elapsed: nat)
      requires Valid()
      modifies this, activeQueue, waitQueue
      ensures Valid()
      ensures waitQueue == []
      ensures forall e :: e in old(activeQueue) ==> Stepped(e, old(e.State()), elapsed)
      ensures PromotedInTurn(old(activeQueue)[ExpiredPrefix(old(activeQueue))..], old(waitQueue), old(StatesOf(waitQueue)))
      ensures multiset(activeQueue) == multiset(old(activeQueue)[ExpiredPrefix(old(activeQueue))..] + old(waitQueue))
      ensures |old(waitQueue)| > 0 ==> SortedByDescendingX(activeQueue)
      ensures |old(waitQueue)| == 0 ==> activeQueue == old(activeQueue)[ExpiredPrefix(old(activeQueue))..]
    {
      UpdateActive(elapsed);
      Rearrange();
    }
  }

  /** Which kind and picture a status-change indicator gets: one icon if the intensity is unchanged, else a blend of both. */
  function StatusIndicatorFor(status: nat, oldIntensity: int, newIntensity: int): (r: (IndicatorKind, Visual))
    ensures r.0 == PositiveStatusEffect <==> oldIntensity <= newIntensity
    ensures r.0 == PositiveStatusEffect || r.0 == NegativeStatusEffect
    ensures r.1.BlendedStatusIcons? <==> oldIntensity != newIntensity
    ensures r.1.StatusIcon? ==> r.1 == StatusIcon(status, newIntensity)
    ensures r.1.BlendedStatusIcons? ==> r.1 == BlendedStatusIcons(status, oldIntensity, newIntensity)
  {
    if oldIntensity == newIntensity then (PositiveStatusEffect, StatusIcon(status, newIntensity))
    else ((if oldIntensity <= newIntensity then PositiveStatusEffect else NegativeStatusEffect),
          BlendedStatusIcons(status, oldIntensity, newIntensity))
  }
}
