/** The job channel between the main thread and the loader thread
    (util/queue.hpp; queue.hpp holds identical copies of both classes).

    Only the sequential behaviour is modelled: the compare-and-swap is a
    method that succeeds exactly when the pointer still holds the expected
    value, so each retry loop runs its body once. */
module JobQueue {

  /** `lockedQueue`: a deque used first-in first-out under a mutex. */
  class LockedQueue<T> {
    /** `m_queue`, front first. */
    var items: seq<T>

    constructor ()
      ensures items == []
    {
      items := [];
    }

    /** `push`: `push_back` under the lock. */
    method Push(t: T)
      modifies this
      ensures items == old(items) + [t]
    {
      items := items + [t];
    }

    /** `try_pop`: on an empty queue reports false and hands `val` back
        untouched; otherwise removes and returns the front element. */
    method TryPop(val: T) returns (ok: bool, out: T)
      modifies this
      ensures ok <==> old(items) != []
      ensures ok ==> out == old(items)[0] && items == old(items)[1..]
      ensures !ok ==> out == val && items == old(items)
    {
      if items == [] {
        return false, val;
      }
      out := items[0];
      items := items[1..];
      ok := true;
    }

    /** `wait_pop`: blocks until another thread pushes, so sequentially it
        can only be called on a non-empty queue; it removes the front. */
    method WaitPop() returns (val: T)
      requires items != []
      modifies this
      ensures val == old(items)[0] && items == old(items)[1..]
    {
      val := items[0];
      items := items[1..];
    }
  }

  /** `QueueItem`: a node of the lock-free list. `Contents` lists the
      values from this node to the end of the list. */
  class QueueItem<T(0)> {
    var value: T
    var next: QueueItem?<T>
    ghost var Footprint: set<object>
    ghost var Contents: seq<T>

    ghost predicate Valid()
      reads this, Footprint
      decreases Footprint
    {
      this in Footprint &&
      (next == null ==> Contents == [value]) &&
      (next != null ==>
        next in Footprint && next.Footprint <= Footprint && this !in next.Footprint &&
        Contents == [value] + next.Contents && next.Valid())
    }

    /** `QueueItem() : next(0)`. */
    constructor ()
      ensures next == null && Footprint == {this} && Contents == [value]
    {
      next := null;
      Footprint := {this};
      Contents := [value];
    }
  }

  /** `locklessQueue`: a singly linked list behind a sentinel node `head`.
      Both `push` and `try_pop` act on the node right after the sentinel,
      so `Contents[0]` is the most recently pushed value still present. */
  class LocklessQueue<T(0)> {
    const head: QueueItem<T>
    ghost var Contents: seq<T>
    ghost var Repr: set<object>

    ghost predicate Valid()
      reads this, Repr
      ensures Valid() ==> this in Repr
    {
      this in Repr && head in Repr &&
      (head.next == null ==> Contents == []) &&
      (head.next != null ==>
        head.next in Repr && head.next.Footprint <= Repr &&
        head !in head.next.Footprint && this !in head.next.Footprint &&
        head.next.Valid() && Contents == head.next.Contents)
    }

    /** `locklessQueue() : head(new QueueItem)`: a fresh queue is empty,
        its sentinel's `next` being null. */
    constructor ()
      ensures Valid() && fresh(Repr)
      ensures Contents == [] && head.next == null
    {
      head := new QueueItem<T>();
      Contents := [];
      Repr := {this, head};
    }

    /** `compareAndSwapPointer(head->next, expected, desired)`. */
    method CompareAndSwapNext(expected: QueueItem?<T>, desired: QueueItem?<T>) returns (swapped: bool)
      modifies head
      ensures swapped <==> old(head.next) == expected
      ensures head.next == (if swapped then desired else old(head.next))
      ensures head.value == old(head.value)
    {
      swapped := head.next == expected;
      if swapped {
        head.next := desired;
      }
    }

    /** `push`: links a new node directly after the sentinel. */
    method Push(t: T)
      requires Valid()
      modifies Repr
      ensures Valid() && fresh(Repr - old(Repr))
      ensures Contents == [t] + old(Contents)
    {
      var newHead := new QueueItem<T>();
      newHead.value := t;
      var swapped := false;
      while !swapped
        modifies head, newHead
        invariant fresh(newHead) && newHead.Footprint == {newHead}
        invariant !swapped ==> head.next == old(head.next)
        invariant swapped ==> head.next == newHead && newHead.next == old(head.next)
        invariant newHead.value == t && head.value == old(head.value)
        decreases if swapped then 0 else 1
      {
        newHead.next := head.next;
        swapped := CompareAndSwapNext(newHead.next, newHead);
      }
      var rest := newHead.next;
      if rest == null {
        newHead.Contents := [t];
      } else {
        newHead.Footprint := {newHead} + rest.Footprint;
        newHead.Contents := [t] + rest.Contents;
      }
      Contents := [t] + Contents;
      Repr := Repr + {newHead};
    }

    /** `try_pop`: on an empty queue reports false and hands `t` back
        untouched; otherwise unlinks the node after the sentinel and
        returns its value. */
    method TryPop(t: T) returns (ok: bool, out: T)
      requires Valid()
      modifies Repr
      ensures Valid() && Repr <= old(Repr)
      ensures ok <==> old(Contents) != []
      ensures ok ==> out == old(Contents)[0] && Contents == old(Contents)[1..]
      ensures !ok ==> out == t && Contents == old(Contents)
    {
      var item: QueueItem?<T> := null;
      var swapped := false;
      while !swapped
        modifies head
        invariant !swapped ==> head.next == old(head.next)
        invariant swapped ==> item == old(head.next) && item != null && head.next == item.next
        invariant head.value == old(head.value)
        decreases if swapped then 0 else 1
      {
        item := head.next;
        if item == null {
          return false, t;
        }
        swapped := CompareAndSwapNext(item, item.next);
      }
      out := item.value;
      Contents := Contents[1..];
      Repr := Repr - {item};
      ok := true;
    }

    /** `wait_pop`: spins until the list is non-empty, so sequentially it
        can only be called on a non-empty queue; it then removes the same
        element `try_pop` would. */
    method WaitPop() returns (result: T)
      requires Valid() && Contents != []
      modifies Repr
      ensures Valid() && Repr <= old(Repr)
      ensures result == old(Contents)[0] && Contents == old(Contents)[1..]
    {
      var item: QueueItem<T> := head.next;
      var swapped := false;
      while !swapped
        modifies head
        invariant !swapped ==> head.next == old(head.next)
        invariant item == old(head.next) && (swapped ==> head.next == item.next)
        invariant head.value == old(head.value)
        decreases if swapped then 0 else 1
      {
        item := head.next;
        swapped := CompareAndSwapNext(item, item.next);
      }
      result := item.value;
      Contents := Contents[1..];
      Repr := Repr - {item};
    }
  }

  /** `queue<T>` is `locklessQueue<T>` unless `USE_LOCKED_QUEUE` is
      defined; the engine is built without it. */
  type Queue<T(0)> = LocklessQueue<T>

  /** Push a, b, c, then pop three times: the lock-free queue hands the
      values back in reverse order. */
  method LocklessOrder(a: int, b: int, c: int) returns (x: int, y: int, z: int)
    ensures x == c && y == b && z == a
  {
    var q := new LocklessQueue<int>();
    q.Push(a);
    q.Push(b);
    q.Push(c);
    var ok: bool;
    ok, x := q.TryPop(0);
    ok, y := q.TryPop(0);
    ok, z := q.TryPop(0);
  }

  /** The same pushes and pops on the locked queue return a, b, c. */
  method LockedOrder(a: int, b: int, c: int) returns (x: int, y: int, z: int)
    ensures x == a && y == b && z == c
  {
    var q := new LockedQueue<int>();
    q.Push(a);
    q.Push(b);
    q.Push(c);
    var ok: bool;
    ok, x := q.TryPop(0);
    ok, y := q.TryPop(0);
    ok, z := q.TryPop(0);
  }

  /** `push(x)` followed by a successful `try_pop` returns x and restores
      the previous contents exactly. */
  method PushThenPop<T(0)>(q: LocklessQueue<T>, x: T, dflt: T) returns (ok: bool, out: T)
    requires q.Valid()
    modifies q.Repr
    ensures q.Valid()
    ensures ok && out == x && q.Contents == old(q.Contents)
  {
    q.Push(x);
    ok, out := q.TryPop(dflt);
  }

  /** On a non-empty lock-free queue `wait_pop` and `try_pop` agree. */
  method WaitPopAgreesWithTryPop<T(0)>(q: LocklessQueue<T>, dflt: T) returns (fromWait: T, fromTry: T)
    requires q.Valid() && q.Contents != []
    modifies q.Repr
    ensures fromWait == fromTry == old(q.Contents)[0]
  {
    fromWait := q.WaitPop();
    q.Push(fromWait);
    var ok;
    ok, fromTry := q.TryPop(dflt);
  }
}
