/**
 The refresh queue of internal/gateway/presence.go: container/heap over onlineDue, where every entry knows its slot.
 The class is proved to implement a finite map from subscription to rank whose head is the least rank.
 */
module DueHeap {
  type Id = nat

  /** Earliest admission time, then first come first served. */
  datatype Rank = Rank(readyAt: nat, order: nat)

  /** onlineDue.Less. */
  predicate Before(a: Rank, b: Rank) {
    a.readyAt < b.readyAt || (a.readyAt == b.readyAt && a.order < b.order)
  }

  predicate Known(d: seq<Id>, r: map<Id, Rank>) { forall i :: 0 <= i < |d| ==> d[i] in r }

  /** Slot k is not due before its ancestor in slot p. */
  predicate Under(d: seq<Id>, r: map<Id, Rank>, k: int, p: int)
    requires Known(d, r) && 0 <= p < |d| && 0 <= k < |d|
  {
    !Before(r[d[k]], r[d[p]])
  }

  function Parent(k: int): int { (k - 1) / 2 }

  predicate Heap(d: seq<Id>, r: map<Id, Rank>)
    requires Known(d, r)
  {
    forall k :: 0 < k < |d| ==> Under(d, r, k, Parent(k))
  }

  lemma {:induction false} RootIsLeast(d: seq<Id>, r: map<Id, Rank>, k: int)
    requires Known(d, r) && Heap(d, r) && 0 <= k < |d|
    ensures Under(d, r, k, 0)
    decreases k
  {
    if k > 0 { RootIsLeast(d, r, Parent(k)); }
  }

  /** The two halves of the index: slots and entries name each other. */
  predicate Linked(d: seq<Id>, index: map<Id, nat>) {
    && (forall i :: 0 <= i < |d| ==> d[i] in index && index[d[i]] == i)
    && (forall x :: x in index ==> index[x] < |d| && d[index[x]] == x)
  }

  /** Heap order on the first n slots, except possibly between slot j and its parent. */
  predicate HeapPrefix(d: seq<Id>, r: map<Id, Rank>, n: int, j: int)
    requires Known(d, r) && n <= |d|
  {
    forall k :: 0 < k < n && k != j ==> Under(d, r, k, Parent(k))
  }

  /** Heap order on the first n slots, except that slot j may be due before its parent. */
  predicate HeapButUp(d: seq<Id>, r: map<Id, Rank>, n: int, j: int)
    requires Known(d, r) && 0 <= j < n <= |d|
  {
    && HeapPrefix(d, r, n, j)
    && (j > 0 ==> forall k :: 0 < k < n && Parent(k) == j ==> Under(d, r, k, Parent(j)))
  }

  /** Heap order on the first n slots around slot i, whose entry is new; top is the slot where it started. */
  predicate HeapButDown(d: seq<Id>, r: map<Id, Rank>, n: int, i: int, top: int)
    requires Known(d, r) && n <= |d| && 0 <= top <= i
  {
    && (forall k :: 0 < k < n && Parent(k) != i && (k != i || i != top) ==> Under(d, r, k, Parent(k)))
    && (0 < i < n ==> forall k :: 0 < k < n && Parent(k) == i ==> Under(d, r, k, Parent(i)))
  }

  function Swapped(d: seq<Id>, i: int, j: int): seq<Id>
    requires 0 <= i < |d| && 0 <= j < |d|
  {
    d[i := d[j]][j := d[i]]
  }

  class OnlineDue {
    var due: seq<Id>
    /** The index field of each queued entry; absent means -1. */
    var index: map<Id, nat>
    /** readyAt and seq of each queued entry. */
    var rank: map<Id, Rank>

    ghost predicate Wired()
      reads this
    {
      Linked(due, index) && index.Keys == rank.Keys
    }

    ghost predicate Valid()
      reads this
    {
      Wired() && Heap(due, rank)
    }

    constructor ()
      ensures Valid() && rank == map[]
    {
      due, index, rank := [], map[], map[];
    }

    /** onlineDue.Swap, the writer of both index fields. */
    method Swap(i: int, j: int)
      requires Wired() && 0 <= i < |due| && 0 <= j < |due|
      modifies this`due, this`index
      ensures Wired() && due == Swapped(old(due), i, j)
    {
      due := Swapped(due, i, j);
      index := index[due[i] := i][due[j] := j];
    }

    /** container/heap up; it reads only slots below n. */
    method Up(start: int, ghost n: int)
      requires Wired() && 0 <= start < n <= |due| && HeapButUp(due, rank, n, start)
      modifies this`due, this`index
      ensures Wired() && |due| == |old(due)| && (forall k :: n <= k < |due| ==> due[k] == old(due)[k])
      ensures HeapPrefix(due, rank, n, -1)
    {
      var j := start;
      while true
        invariant Wired() && 0 <= j < n <= |due| == |old(due)| && HeapButUp(due, rank, n, j)
        invariant forall k :: n <= k < |due| ==> due[k] == old(due)[k]
        decreases j
      {
        if j == 0 { break; }
        var i := Parent(j);
        if !Before(rank[due[j]], rank[due[i]]) { break; }
        ghost var d := due;
        Swap(i, j);
        UpStep(d, rank, n, j);
        j := i;
      }
    }

    /** One turn of container/heap down: the entry of slot i moves below to slot j, or it is in order and j is i. */
    method Sink(i: int, n: int, ghost top: int) returns (j: int)
      requires Wired() && 0 <= top <= i < n <= |due| && HeapButDown(due, rank, n, i, top)
      modifies this`due, this`index
      ensures Wired() && |due| == |old(due)| && i <= j < n && (forall k :: n <= k < |due| ==> due[k] == old(due)[k])
      ensures j > i ==> HeapButDown(due, rank, n, j, top)
      ensures j == i ==> due == old(due) && HeapPrefix(due, rank, n, if i == top then top else -1)
    {
      j := 2 * i + 1;
      if j >= n { InOrderBelow(due, rank, n, i, top, j); return i; }
      if j + 1 < n && Before(rank[due[j + 1]], rank[due[j]]) { j := j + 1; }
      Children(due, rank, n, i, j);
      if !Before(rank[due[j]], rank[due[i]]) { InOrderBelow(due, rank, n, i, top, j); return i; }
      ghost var d := due;
      Swap(i, j);
      DownStep(d, rank, n, i, j, top);
    }

    /** container/heap down over the first n slots; reports whether the entry moved. */
    method Down(start: int, n: int) returns (moved: bool)
      requires Wired() && 0 <= start < n <= |due| && HeapButDown(due, rank, n, start, start)
      modifies this`due, this`index
      ensures Wired() && |due| == |old(due)| && (forall k :: n <= k < |due| ==> due[k] == old(due)[k])
      ensures moved ==> HeapPrefix(due, rank, n, -1)
      ensures !moved ==> due == old(due) && HeapPrefix(due, rank, n, start)
    {
      var i := start;
      while true
        invariant Wired() && start <= i < n <= |due| == |old(due)| && HeapButDown(due, rank, n, i, start)
        invariant forall k :: n <= k < |due| ==> due[k] == old(due)[k]
        invariant i == start ==> due == old(due)
        decreases n - i
      {
        var j := Sink(i, n, start);
        if j == i { break; }
        i := j;
      }
      moved := i > start;
    }

    /** onlineDue.Pop drops the last slot. */
    method DropLast() returns (x: Id)
      requires Wired() && |due| > 0 && HeapPrefix(due, rank, |due| - 1, -1)
      modifies this
      ensures Valid() && x == old(due)[|old(due)| - 1] && rank == old(rank) - {x}
    {
      x := due[|due| - 1];
      due, index, rank := due[..|due| - 1], index - {x}, rank - {x};
      assert forall k :: 0 < k < |due| ==> Under(old(due), old(rank), k, Parent(k));
    }

    /** heap.Push of an entry that is not queued. */
    method Push(x: Id, r: Rank)
      requires Valid() && x !in rank
      modifies this
      ensures Valid() && rank == old(rank)[x := r]
    {
      due, index, rank := due + [x], index[x := |due|], rank[x := r];
      assert forall k :: 0 < k < |old(due)| ==> Under(old(due), old(rank), k, Parent(k));
      Up(|due| - 1, |due|);
    }

    /** Puts the entry of slot i in its place among the first n slots: downwards, or else upwards. */
    method Restore(i: int, n: int)
      requires Wired() && 0 <= i < n <= |due| && HeapButDown(due, rank, n, i, i)
      modifies this`due, this`index
      ensures Wired() && |due| == |old(due)| && (forall k :: n <= k < |due| ==> due[k] == old(due)[k])
      ensures HeapPrefix(due, rank, n, -1)
    {
      var moved := Down(i, n);
      if !moved { Up(i, n); }
    }

    /** heap.Fix after the entry's rank changed. */
    method Fix(x: Id, r: Rank)
      requires Valid() && x in rank
      modifies this
      ensures Valid() && rank == old(rank)[x := r]
    {
      rank := rank[x := r];
      var i := index[x];
      Bypass(due, old(rank), rank, i);
      Restore(i, |due|);
    }

    /** heap.Remove of a queued entry. */
    method Remove(x: Id)
      requires Valid() && x in rank
      modifies this
      ensures Valid() && rank == old(rank) - {x}
    {
      var i, n := index[x], |due| - 1;
      if n != i {
        ghost var d := due;
        Swap(i, n);
        SwapOut(d, rank, i);
        Restore(i, n);
      }
      var y := DropLast();
    }

    /** heap.Pop: the head, which no queued entry is due before. */
    method Pop() returns (x: Id)
      requires Valid() && |due| > 0
      modifies this
      ensures Valid() && x in old(rank) && rank == old(rank) - {x}
      ensures x == old(due)[0] && forall y :: y in old(rank) ==> !Before(old(rank)[y], old(rank)[x])
    {
      Least();
      var n := |due| - 1;
      ghost var d := due;
      Swap(0, n);
      if n > 0 {
        SwapOut(d, rank, 0);
        var _ := Down(0, n);
      }
      x := DropLast();
    }

    lemma Least()
      requires Valid() && |due| > 0
      ensures due[0] in rank && forall y :: y in rank ==> !Before(rank[y], rank[due[0]])
    {
      forall y | y in rank ensures !Before(rank[y], rank[due[0]]) { RootIsLeast(due, rank, index[y]); }
    }
  }

  /** The chosen child j is due no later than its sibling. */
  lemma Children(d: seq<Id>, r: map<Id, Rank>, n: int, i: int, j: int)
    requires Known(d, r) && 0 <= i && 2 * i + 1 < n <= |d|
    requires j == if 2 * i + 2 < n && Before(r[d[2 * i + 2]], r[d[2 * i + 1]]) then 2 * i + 2 else 2 * i + 1
    ensures Parent(j) == i && forall k :: 0 < k < n && Parent(k) == i ==> Under(d, r, k, j)
  {}

  lemma InOrderBelow(d: seq<Id>, r: map<Id, Rank>, n: int, i: int, top: int, j: int)
    requires Known(d, r) && 0 <= top <= i < n <= |d| && HeapButDown(d, r, n, i, top)
    requires 2 * i + 1 < n ==>
             && 0 <= j < |d| && Under(d, r, j, i)
             && (forall k :: 0 < k < n && Parent(k) == i ==> Under(d, r, k, j))
    ensures HeapPrefix(d, r, n, if i == top then top else -1)
  {}

  /** Around a slot whose rank changed, the rest of the heap is still in order. */
  lemma Bypass(d: seq<Id>, r: map<Id, Rank>, r': map<Id, Rank>, i: int)
    requires Known(d, r) && Known(d, r') && Heap(d, r) && 0 <= i < |d|
    requires forall k :: 0 <= k < |d| && k != i ==> r'[d[k]] == r[d[k]]
    ensures HeapButDown(d, r', |d|, i, i)
  {}

  /** Likewise when the last entry takes the place of the one removed. */
  lemma SwapOut(d: seq<Id>, r: map<Id, Rank>, i: int)
    requires Known(d, r) && Heap(d, r) && 0 <= i < |d| - 1
    ensures Known(Swapped(d, i, |d| - 1), r) && HeapButDown(Swapped(d, i, |d| - 1), r, |d| - 1, i, i)
  {}

  lemma UpStep(d: seq<Id>, r: map<Id, Rank>, n: int, j: int)
    requires Known(d, r) && 0 < j < n <= |d| && HeapButUp(d, r, n, j) && Before(r[d[j]], r[d[Parent(j)]])
    ensures Known(Swapped(d, Parent(j), j), r) && HeapButUp(Swapped(d, Parent(j), j), r, n, Parent(j))
  {
    var i := Parent(j);
    var e := Swapped(d, i, j);
    forall k | 0 < k < n && k != i ensures Under(e, r, k, Parent(k)) {
      assert k != j ==> Under(d, r, k, Parent(k));
    }
    if i > 0 {
      assert Under(d, r, i, Parent(i));
      forall k | 0 < k < n && Parent(k) == i ensures Under(e, r, k, Parent(i)) {
        assert k != j ==> Under(d, r, k, i);
      }
    }
  }

  lemma DownStep(d: seq<Id>, r: map<Id, Rank>, n: int, i: int, j: int, top: int)
    requires Known(d, r) && 0 <= top <= i < j < n <= |d| && Parent(j) == i && HeapButDown(d, r, n, i, top)
    requires Before(r[d[j]], r[d[i]])
    requires forall k :: 0 < k < n && Parent(k) == i ==> Under(d, r, k, j)
    ensures Known(Swapped(d, i, j), r) && HeapButDown(Swapped(d, i, j), r, n, j, top)
  {}
}
