/** The ready queue: a binary heap over shared task objects, and cancellation by draining and rebuilding. */
module TaskQueues {
  import opened TaskIds
  import opened Tasks
  import opened Seqs

  /** The parent of a heap position. */
  function Parent(i: nat): nat
    requires i > 0
  {
    (i - 1) / 2
  }

  lemma AfterIsStrictWeakOrder(a: Key, b: Key, c: Key)
    ensures After(a, b) <==> a.priority > b.priority || (a.priority == b.priority && a.startTime > b.startTime)
    ensures !After(a, a)
    ensures After(a, b) ==> !After(b, a)
    ensures After(a, b) && After(b, c) ==> After(a, c)
    ensures !After(a, b) && !After(b, c) ==> !After(a, c)
    ensures !After(a, b) && !After(b, a) ==> a == b
  {
  }

  /** No child stands before its parent, except possibly at position hole. */
  ghost predicate OrderedBut(h: seq<Task>, hole: int)
    reads h`startTime
  {
    forall i :: 0 < i < |h| && i != hole ==> !After(h[Parent(i)].SortKey(), h[i].SortKey())
  }

  ghost predicate HeapOrdered(h: seq<Task>)
    reads h`startTime
  {
    OrderedBut(h, 0)
  }

  lemma {:induction false} RootIsLeast(h: seq<Task>, i: nat)
    requires HeapOrdered(h) && i < |h|
    ensures !After(h[0].SortKey(), h[i].SortKey())
    decreases i
  {
    if i > 0 {
      RootIsLeast(h, Parent(i));
      AfterIsStrictWeakOrder(h[0].SortKey(), h[Parent(i)].SortKey(), h[i].SortKey());
    }
  }

  function Swap<T>(s: seq<T>, i: nat, j: nat): (r: seq<T>)
    requires i < |s| && j < |s|
    ensures |r| == |s| && multiset(r) == multiset(s)
  {
    s[i := s[j]][j := s[i]]
  }

  /** Every position but the children of i is in order, and those are in order with the parent of i. */
  ghost predicate SinkingAt(h: seq<Task>, i: nat)
    reads h`startTime
  {
    && (forall j :: 0 < j < |h| && Parent(j) != i ==> !After(h[Parent(j)].SortKey(), h[j].SortKey()))
    && (i > 0 ==> forall j :: 0 < j < |h| && Parent(j) == i ==> !After(h[Parent(i)].SortKey(), h[j].SortKey()))
  }

  /** One step down: the lesser child takes the place of its parent. */
  lemma SinkStep(h: seq<Task>, i: nat, child: nat)
    requires SinkingAt(h, i) && i < child < |h| && Parent(child) == i
    requires After(h[i].SortKey(), h[child].SortKey())
    requires forall j :: 0 < j < |h| && Parent(j) == i ==> !After(h[child].SortKey(), h[j].SortKey())
    ensures SinkingAt(Swap(h, i, child), child)
  {
    var g := Swap(h, i, child);
    forall j | 0 < j < |g| && Parent(j) != child
      ensures !After(g[Parent(j)].SortKey(), g[j].SortKey())
    {
      if Parent(j) == i {
        AfterIsStrictWeakOrder(h[i].SortKey(), h[child].SortKey(), h[i].SortKey());
      } else {
        assert !After(h[Parent(j)].SortKey(), h[j].SortKey());
      }
    }
  }

  predicate HasId(ts: seq<Task>, taskId: Id) {
    exists i :: 0 <= i < |ts| && ts[i].id == taskId
  }

  /** The tasks with other ids, in their order. */
  function Others(ts: seq<Task>, taskId: Id): seq<Task> {
    if ts == [] then [] else Unless(ts[0], taskId) + Others(ts[1..], taskId)
  }

  function Unless(t: Task, taskId: Id): seq<Task> {
    if t.id == taskId then [] else [t]
  }

  lemma {:induction false} OthersConcat(a: seq<Task>, b: seq<Task>, taskId: Id)
    ensures Others(a + b, taskId) == Others(a, taskId) + Others(b, taskId)
  {
    if a == [] {
      assert a + b == b;
    } else {
      OthersConcat(a[1..], b, taskId);
      assert (a + b)[1..] == a[1..] + b;
    }
  }

  lemma OthersAppend(ts: seq<Task>, t: Task, taskId: Id)
    ensures Others(ts + [t], taskId) == Others(ts, taskId) + Unless(t, taskId)
  {
    OthersConcat(ts, [t], taskId);
  }

  lemma OthersWithout(ts: seq<Task>, k: nat, taskId: Id)
    requires k < |ts|
    ensures multiset(Others(ts, taskId)) == multiset(Others(Without(ts, k), taskId)) + multiset(Unless(ts[k], taskId))
  {
    var a, b := ts[..k], ts[k + 1..];
    assert ts == (a + [ts[k]]) + b;
    OthersConcat(a + [ts[k]], b, taskId);
    OthersAppend(a, ts[k], taskId);
    OthersConcat(a, b, taskId);
  }

  /** Filtering and rearranging commute. */
  lemma {:induction false} OthersRearranged(a: seq<Task>, b: seq<Task>, taskId: Id)
    requires multiset(a) == multiset(b)
    ensures multiset(Others(a, taskId)) == multiset(Others(b, taskId))
    decreases |a|
  {
    if a == [] {
      assert |b| == |multiset(b)| == 0;
    } else {
      var k := IndexOf(b, a[0]);
      OthersRearranged(Without(a, 0), Without(b, k), taskId);
      OthersWithout(a, 0, taskId);
      OthersWithout(b, k, taskId);
    }
  }

  lemma HasIdRearranged(a: seq<Task>, b: seq<Task>, taskId: Id)
    requires multiset(a) == multiset(b)
    ensures HasId(a, taskId) <==> HasId(b, taskId)
    ensures forall t :: t in b ==> t in a
  {
    if i :| 0 <= i < |a| && a[i].id == taskId {
      var k := IndexOf(b, a[i]);
    }
    forall t | t in b
      ensures t in a
    {
      var k := IndexOf(a, t);
    }
    if i :| 0 <= i < |b| && b[i].id == taskId {
      var k := IndexOf(a, b[i]);
    }
  }

  lemma HasIdAppend(ts: seq<Task>, t: Task, taskId: Id)
    ensures HasId(ts + [t], taskId) <==> HasId(ts, taskId) || t.id == taskId
  {
    if i :| 0 <= i < |ts| && ts[i].id == taskId {
      assert (ts + [t])[i] == ts[i];
    }
    assert (ts + [t])[|ts|] == t;
  }

  /** One task moves from the heap to the tasks popped so far. */
  lemma MovesOver(all: seq<Task>, popped: seq<Task>, before: seq<Task>, task: Task, after: seq<Task>)
    requires multiset(before) + multiset(popped) == multiset(all)
    requires multiset(after) + multiset{task} == multiset(before)
    ensures multiset(after) + multiset(popped + [task]) == multiset(all) && task in all
  {
    assert task in multiset(all);
  }

  lemma OneMorePopped(all: seq<Task>, popped: seq<Task>, before: seq<Task>, task: Task, after: seq<Task>, taskId: Id)
    requires multiset(before) + multiset(popped) == multiset(all)
    requires multiset(after) + multiset{task} == multiset(before)
    ensures multiset(after) + multiset(popped + [task]) == multiset(all) && task in all
    ensures Others(popped + [task], taskId) == Others(popped, taskId) + Unless(task, taskId)
    ensures HasId(popped + [task], taskId) <==> HasId(popped, taskId) || task.id == taskId
  {
    MovesOver(all, popped, before, task, after);
    OthersAppend(popped, task, taskId);
    HasIdAppend(popped, task, taskId);
  }

  lemma Remaining(before: seq<Task>, task: Task, after: seq<Task>)
    requires multiset(after) + multiset{task} == multiset(before)
    ensures task in before && forall u :: u in after ==> u in before
  {
    assert task in multiset(before);
    forall u | u in after
      ensures u in before
    {
      assert u in multiset(before);
    }
  }

  /** No task of a stands after one of b. */
  ghost predicate AheadOf(a: seq<Task>, b: seq<Task>)
    reads a`startTime, b`startTime
  {
    forall t, u :: t in a && u in b ==> !After(t.SortKey(), u.SortKey())
  }

  lemma NothingSorted(ts: seq<Task>)
    ensures Sorted(Keys([])) && AheadOf([], ts)
  {
  }

  /** The next pop of a sorted drain. */
  lemma OneMoreSorted(out: seq<Task>, before: seq<Task>, task: Task, after: seq<Task>)
    requires Sorted(Keys(out)) && AheadOf(out, before)
    requires multiset(after) + multiset{task} == multiset(before)
    requires forall u :: u in before ==> !After(task.SortKey(), u.SortKey())
    ensures Sorted(Keys(out + [task])) && AheadOf(out + [task], after)
  {
    Remaining(before, task, after);
  }

  ghost function Matching(ts: seq<Task>, taskId: Id): set<Task> {
    set t | t in ts && t.id == taskId
  }

  lemma MatchingRemain(all: seq<Task>, popped: seq<Task>, rest: seq<Task>, taskId: Id)
    requires multiset(rest) + multiset(popped) == multiset(all)
    ensures Matching(rest, taskId) <= Matching(all, taskId)
  {
    forall t | t in rest
      ensures t in all
    {
      assert t in multiset(rest) && t in multiset(all);
    }
  }

  ghost predicate AllMarked(ts: seq<Task>, taskId: Id)
    reads ts`status
  {
    forall t :: t in ts && t.id == taskId ==> t.status == Cancelled
  }

  lemma NothingPopped(taskId: Id)
    ensures !HasId([], taskId) && AllMarked([], taskId)
  {
  }

  lemma AllPopped(all: seq<Task>, popped: seq<Task>, taskId: Id)
    requires multiset(popped) == multiset(all)
    ensures multiset(Others(popped, taskId)) == multiset(Others(all, taskId))
    ensures HasId(popped, taskId) <==> HasId(all, taskId)
    ensures AllMarked(popped, taskId) ==> AllMarked(all, taskId)
  {
    OthersRearranged(popped, all, taskId);
    HasIdRearranged(popped, all, taskId);
  }

  class TaskQueue {
    var pq: seq<Task>

    ghost predicate Valid()
      reads this, pq`startTime
    {
      HeapOrdered(pq)
    }

    constructor ()
      ensures Valid() && pq == []
    {
      pq := [];
    }

    predicate IsEmpty()
      reads this
    {
      pq == []
    }

    /** Lets the last element rise until its parent does not stand after it. */
    static method SiftUp(last: seq<Task>) returns (h: seq<Task>)
      requires last != [] && OrderedBut(last, |last| - 1)
      ensures HeapOrdered(h) && multiset(h) == multiset(last)
    {
      h := last;
      var i := |h| - 1;
      while i > 0 && After(h[Parent(i)].SortKey(), h[i].SortKey())
        invariant 0 <= i < |h| == |last|
        invariant multiset(h) == multiset(last)
        invariant OrderedBut(h, i)
        invariant i > 0 ==> forall j :: 0 < j < |h| && Parent(j) == i ==> !After(h[Parent(i)].SortKey(), h[j].SortKey())
      {
        h := Swap(h, i, Parent(i));
        i := Parent(i);
      }
    }

    method Push(task: Task)
      requires Valid()
      modifies `pq
      ensures Valid() && multiset(pq) == multiset(old(pq)) + multiset{task}
    {
      pq := SiftUp(pq + [task]);
    }

    /** Lets the first element sink while a child stands before it. */
    static method SiftDown(first: seq<Task>) returns (h: seq<Task>)
      requires SinkingAt(first, 0)
      ensures HeapOrdered(h) && multiset(h) == multiset(first)
    {
      h := first;
      var i := 0;
      while 2 * i + 1 < |h|
        invariant 0 <= i && |h| == |first|
        invariant multiset(h) == multiset(first)
        invariant SinkingAt(h, i)
        decreases |h| - i
      {
        var child := LesserChild(h, i);
        if !After(h[i].SortKey(), h[child].SortKey()) {
          forall j | 0 < j < |h| && Parent(j) == i
            ensures !After(h[i].SortKey(), h[j].SortKey())
          {
            AfterIsStrictWeakOrder(h[i].SortKey(), h[child].SortKey(), h[j].SortKey());
          }
          return;
        }
        SinkStep(h, i, child);
        h := Swap(h, i, child);
        i := child;
      }
    }

    static method LesserChild(h: seq<Task>, i: nat) returns (child: nat)
      requires 2 * i + 1 < |h|
      ensures i < child < |h| && Parent(child) == i
      ensures forall j :: 0 < j < |h| && Parent(j) == i ==> !After(h[child].SortKey(), h[j].SortKey())
    {
      child := 2 * i + 1;
      if child + 1 < |h| && After(h[child].SortKey(), h[child + 1].SortKey()) {
        child := child + 1;
      }
    }

    /** pq.top() and pq.pop(): a least task leaves the queue. */
    method Pop() returns (task: Task)
      requires Valid() && !IsEmpty()
      modifies `pq
      ensures Valid() && task in old(pq) && multiset(pq) + multiset{task} == multiset(old(pq))
      ensures forall t :: t in old(pq) ==> !After(task.SortKey(), t.SortKey())
      ensures forall t :: t in old(pq) ==> task.config.priority <= t.config.priority
      ensures forall t :: t in old(pq) && t.config.priority == task.config.priority ==> task.startTime <= t.startTime
    {
      forall i | 0 <= i < |pq|
        ensures !After(pq[0].SortKey(), pq[i].SortKey())
      {
        RootIsLeast(pq, i);
      }
      task := pq[0];
      var last := pq[|pq| - 1];
      var rest := pq[..|pq| - 1];
      assert pq == rest + [last];
      if rest != [] {
        rest := rest[0 := last];
        rest := SiftDown(rest);
      }
      pq := rest;
    }

    method Clear()
      requires Valid()
      modifies `pq
      ensures Valid() && pq == []
    {
      while !IsEmpty()
        invariant Valid()
        decreases |multiset(pq)|
      {
        var _ := Pop();
      }
    }

    /** One round of the first loop of cancelTask: a popped task with the id is marked. */
    method ExtractOne(taskId: Id, ghost popped: seq<Task>) returns (task: Task)
      requires Valid() && !IsEmpty() && AllMarked(popped, taskId)
      modifies `pq, Matching(pq, taskId)`status
      ensures Valid() && multiset(pq) + multiset{task} == multiset(old(pq))
      ensures AllMarked(popped + [task], taskId)
    {
      task := Pop();
      if task.id == taskId {
        task.SetStatus(Cancelled);
      }
    }

    /** The first loop of cancelTask: everything is popped, and the tasks with the id are dropped. */
    method ExtractOthers(taskId: Id) returns (kept: seq<Task>, found: bool)
      requires Valid()
      modifies `pq, Matching(pq, taskId)`status
      ensures Valid() && pq == []
      ensures multiset(kept) == multiset(Others(old(pq), taskId))
      ensures found <==> HasId(old(pq), taskId)
      ensures AllMarked(old(pq), taskId)
    {
      hide Valid, AllMarked, HasId, Matching;
      kept, found := [], false;
      ghost var popped: seq<Task> := [];
      NothingPopped(taskId);
      while !IsEmpty()
        invariant Valid() && multiset(pq) + multiset(popped) == multiset(old(pq))
        invariant kept == Others(popped, taskId)
        invariant found <==> HasId(popped, taskId)
        invariant AllMarked(popped, taskId)
        decreases |multiset(pq)|
      {
        ghost var before := pq;
        MatchingRemain(old(pq), popped, pq, taskId);
        var task := ExtractOne(taskId, popped);
        OneMorePopped(old(pq), popped, before, task, pq, taskId);
        popped := popped + [task];
        if task.id == taskId {
          found := true;
        } else {
          kept := kept + [task];
        }
      }
      AllPopped(old(pq), popped, taskId);
    }

    /** TaskQueue::cancelTask: exactly the tasks with the id leave and are marked; no key changes. */
    method CancelTask(taskId: Id) returns (found: bool)
      requires Valid()
      modifies `pq, Matching(pq, taskId)`status
      ensures Valid()
      ensures multiset(pq) == multiset(Others(old(pq), taskId))
      ensures found <==> HasId(old(pq), taskId)
      ensures AllMarked(old(pq), taskId)
    {
      hide Valid, AllMarked, HasId, Others, Matching;
      var kept;
      kept, found := ExtractOthers(taskId);
      for i := 0 to |kept|
        invariant Valid() && multiset(pq) == multiset(kept[..i])
        modifies `pq
      {
        Push(kept[i]);
        assert kept[..i + 1] == kept[..i] + [kept[i]];
      }
      assert kept[..|kept|] == kept;
    }

    /** Popping until the queue is empty, as the first loop of cancelTask does: a sorted rearrangement. */
    method PopAll() returns (out: seq<Task>)
      requires Valid()
      modifies `pq
      ensures Valid() && pq == [] && multiset(out) == multiset(old(pq)) && Sorted(Keys(out))
      ensures forall i, j :: 0 <= i < j < |out| ==>
                || out[i].config.priority < out[j].config.priority
                || (out[i].config.priority == out[j].config.priority && out[i].startTime <= out[j].startTime)
    {
      hide Valid, Sorted, AheadOf;
      out := [];
      NothingSorted(pq);
      while !IsEmpty()
        invariant Valid() && multiset(pq) + multiset(out) == multiset(old(pq))
        invariant Sorted(Keys(out)) && AheadOf(out, pq)
        decreases |multiset(pq)|
      {
        ghost var before := pq;
        var task := Pop();
        OneMoreSorted(out, before, task, pq);
        out := out + [task];
      }
      SortedNumbers(out);
    }
  }

  /** Sorted tasks ascend in priority number, and then in start time. */
  lemma SortedNumbers(ts: seq<Task>)
    requires Sorted(Keys(ts))
    ensures forall i, j :: 0 <= i < j < |ts| ==>
              || ts[i].config.priority < ts[j].config.priority
              || (ts[i].config.priority == ts[j].config.priority && ts[i].startTime <= ts[j].startTime)
  {
    forall i, j | 0 <= i < j < |ts|
      ensures || ts[i].config.priority < ts[j].config.priority
              || (ts[i].config.priority == ts[j].config.priority && ts[i].startTime <= ts[j].startTime)
    {
      assert !After(Keys(ts)[i], Keys(ts)[j]);
    }
  }

  // ---------- What draining the queue yields ----------

  ghost function Keys(ts: seq<Task>): (r: seq<Key>)
    reads ts
    ensures |r| == |ts|
    ensures forall i :: 0 <= i < |ts| ==> r[i] == ts[i].SortKey()
  {
    seq(|ts|, i requires 0 <= i < |ts| reads ts => ts[i].SortKey())
  }

  ghost predicate Sorted(keys: seq<Key>) {
    forall i, j :: 0 <= i < j < |keys| ==> !After(keys[i], keys[j])
  }

  /** A sorted rearrangement of keys is unique. */
  lemma {:induction false} SortedIsUnique(a: seq<Key>, b: seq<Key>)
    requires Sorted(a) && Sorted(b) && multiset(a) == multiset(b)
    ensures a == b
    decreases |a|
  {
    assert |a| == |multiset(a)| == |b|;
    if a != [] {
      SameHead(a, b);
      Tail(a);
      Tail(b);
      SortedTail(a);
      SortedTail(b);
      SortedIsUnique(a[1..], b[1..]);
    }
  }

  lemma SortedTail(keys: seq<Key>)
    requires Sorted(keys) && keys != []
    ensures Sorted(keys[1..])
  {
  }

  lemma SameHead(a: seq<Key>, b: seq<Key>)
    requires Sorted(a) && Sorted(b) && multiset(a) == multiset(b) && a != [] && b != []
    ensures a[0] == b[0]
  {
    assert a[0] in multiset(b) && b[0] in multiset(a);
    var i :| 0 <= i < |b| && b[i] == a[0];
    var j :| 0 <= j < |a| && a[j] == b[0];
    AfterIsStrictWeakOrder(a[0], b[0], a[0]);
  }

  lemma {:induction false} OthersSorted(ts: seq<Task>, taskId: Id)
    requires Sorted(Keys(ts))
    ensures Sorted(Keys(Others(ts, taskId)))
    ensures forall t :: t in Others(ts, taskId) ==> t in ts
  {
    if ts != [] {
      assert Keys(ts[1..]) == Keys(ts)[1..];
      OthersSorted(ts[1..], taskId);
      var rest := Others(ts[1..], taskId);
      forall i | 0 <= i < |rest|
        ensures !After(ts[0].SortKey(), rest[i].SortKey())
      {
        assert rest[i] in ts[1..];
        var k :| 0 <= k < |ts| - 1 && ts[1..][k] == rest[i];
        assert Keys(ts)[0] == ts[0].SortKey() && Keys(ts)[k + 1] == rest[i].SortKey();
      }
    }
  }

  lemma SameKeys(a: seq<Task>, b: seq<Task>)
    requires multiset(a) == multiset(b)
    ensures multiset(Keys(a)) == multiset(Keys(b))
  {
    var keys := map t | t in a :: t.SortKey();
    var f := t => if t in keys then keys[t] else Key(0, 0);
    forall i | 0 <= i < |b|
      ensures b[i] in a
    {
      assert b[i] in multiset(a);
    }
    assert Keys(a) == Map(f, a) && Keys(b) == Map(f, b);
    MapRearranged(f, a, b);
  }

  /** Cancelling is filtering: with queued before it and rest after it, any drain of rest yields the keys of any
      drain of queued, without the matching tasks. */
  lemma DrainAfterCancel(queued: seq<Task>, before: seq<Task>, rest: seq<Task>, after: seq<Task>, taskId: Id)
    requires multiset(rest) == multiset(Others(queued, taskId))
    requires multiset(before) == multiset(queued) && multiset(after) == multiset(rest)
    requires Sorted(Keys(before)) && Sorted(Keys(after))
    ensures Keys(after) == Keys(Others(before, taskId))
  {
    OthersRearranged(before, queued, taskId);
    OthersSorted(before, taskId);
    SameKeys(after, Others(before, taskId));
    SortedIsUnique(Keys(after), Keys(Others(before, taskId)));
  }
}
