/** The pool's intrusive queue, edited in place, against the sequence operations the
    state machine uses for it. */
module TaskQueues {
  import opened Basics
  import opened GatherModel

  /** A task as the queue sees it: which one it is, and its link. */
  class TaskNode {
    const ref: TaskRef
    var next: TaskNode?

    constructor (ref: TaskRef)
      ensures this.ref == ref && next == null
    {
      this.ref := ref;
      next := null;
    }
  }

  function RefsOf(nodes: seq<TaskNode>): (r: seq<TaskRef>)
    ensures |r| == |nodes|
    ensures forall i :: 0 <= i < |r| ==> r[i] == nodes[i].ref
  {
    seq(|nodes|, i requires 0 <= i < |nodes| => nodes[i].ref)
  }

  class TaskQueue {
    var head: TaskNode?
    var tail: TaskNode?
    var queued: nat
    ghost var nodes: seq<TaskNode>

    /** The links run through `nodes` in order and end there: no cycle, and `tail` and
        `queued` say where and after how many. */
    ghost predicate Valid()
      reads this, nodes
    {
      && queued == |nodes|
      && NoDup(RefsOf(nodes))
      && (nodes == [] ==> head == null && tail == null)
      && (nodes != [] ==> head == nodes[0] && tail == nodes[|nodes| - 1] && nodes[|nodes| - 1].next == null)
      && forall i {:trigger nodes[i].next} :: 0 <= i < |nodes| - 1 ==> nodes[i].next == nodes[i + 1]
    }

    ghost function Contents(): seq<TaskRef>
      reads this
    {
      RefsOf(nodes)
    }

    constructor ()
      ensures Valid() && Contents() == []
    {
      head, tail, queued, nodes := null, null, 0, [];
    }

    /** Put an untouched task at the end. */
    method Enqueue(task: TaskNode)
      requires Valid() && task !in nodes && task.next == null && task.ref !in Contents()
      modifies this, nodes
      ensures Valid() && nodes == old(nodes) + [task]
      ensures Contents() == old(Contents()) + [task.ref]
      ensures forall n :: n in old(nodes) && n != old(tail) ==> n.next == old(n.next)
    {
      if tail == null {
        head := task;
      } else {
        tail.next := task;
      }
      tail := task;
      queued := queued + 1;
      nodes := nodes + [task];
      assert RefsOf(nodes) == old(RefsOf(nodes)) + [task.ref];
    }

    /** What a worker does with a queue that is not empty. */
    method Pop() returns (task: TaskNode)
      requires Valid() && Contents() != []
      modifies this
      ensures Valid() && nodes == old(nodes)[1..] && task == old(nodes)[0]
      ensures Contents() == old(Contents())[1..] && task.ref == old(Contents())[0]
    {
      task := head;
      head := task.next;
      if head == null {
        tail := null;
      }
      queued := queued - 1;
      assert |nodes| > 1 ==> nodes[0].next == nodes[1];
      nodes := nodes[1..];
      assert RefsOf(nodes) == old(RefsOf(nodes))[1..];
    }

    /** Walk the links to a task; answers it and its predecessor, or null. */
    method Find(task: TaskNode) returns (node: TaskNode?, prev: TaskNode?, ghost k: nat)
      requires Valid()
      ensures node == null ==> task !in nodes
      ensures node != null ==> node == task && k < |nodes| && nodes[k] == node
      ensures node != null ==> prev == if k > 0 then nodes[k - 1] else null
    {
      node, prev, k := head, null, 0;
      while node != null && node != task
        invariant 0 <= k <= |nodes|
        invariant node == if k < |nodes| then nodes[k] else null
        invariant prev == if k > 0 then nodes[k - 1] else null
        invariant task !in nodes[..k]
        decreases |nodes| - k
      {
        assert nodes[..k + 1] == nodes[..k] + [nodes[k]];
        prev := node;
        node := node.next;
        k := k + 1;
      }
      assert k == |nodes| ==> nodes[..k] == nodes;
    }

    /** Bypass a node of the queue. */
    method Bypass(node: TaskNode, prev: TaskNode?, ghost k: nat)
      requires Valid() && NoDup(nodes) && k < |nodes| && nodes[k] == node
      requires prev == if k > 0 then nodes[k - 1] else null
      modifies this, nodes
      ensures Valid() && nodes == old(nodes[..k] + nodes[k + 1..]) && node.next == null
    {
      if prev == null {
        head := node.next;
      } else {
        prev.next := node.next;
      }
      if tail == node {
        tail := prev;
      }
      node.next := null;
      queued := queued - 1;
      CutRefs(nodes, k);
      nodes := nodes[..k] + nodes[k + 1..];
    }

    /** Take a task back off the queue, if no worker has claimed it yet. */
    method Unqueue(task: TaskNode) returns (found: bool)
      requires Valid()
      modifies this, nodes
      ensures Valid() && found == (task in old(nodes))
      ensures found ==> task.next == null && Contents() == Without(old(Contents()), task.ref)
      ensures !found ==> Contents() == old(Contents())
      ensures forall n :: n in nodes ==> n in old(nodes) && (found ==> n != task)
    {
      ghost var k;
      var node, prev;
      node, prev, k := Find(task);
      if node == null {
        return false;
      }
      DistinctNodes(nodes);
      ghost var refs := RefsOf(nodes);
      CutRefs(nodes, k);
      WithoutAt(refs, k);
      Bypass(node, prev, k);
      return true;
    }

    /** The submission loop of `par`: it queues tasks of batch `b` from `submitted` on
        while fewer than `quota` are in flight, and answers how far it came. */
    method Submit(tasks: seq<TaskNode>, b: nat, submitted: nat, done: int, quota: int) returns (to: nat)
      requires Valid() && submitted <= |tasks|
      requires forall k :: 0 <= k < |tasks| ==> tasks[k].ref == TaskRef(b, k)
      requires forall k :: submitted <= k < |tasks| ==> tasks[k] !in nodes && tasks[k].next == null
      requires forall k :: submitted <= k < |tasks| ==> TaskRef(b, k) !in Contents()
      modifies this, nodes, tasks
      ensures Valid() && submitted <= to <= |tasks|
      ensures Contents() == old(Contents()) + Refs(b, submitted, to)
      ensures var room := if done + quota < |tasks| then done + quota else |tasks|;
              to == if submitted < room then room else submitted
    {
      to := submitted;
      while to < |tasks| && to - done < quota
        invariant submitted <= to <= |tasks|
        invariant to == submitted || to - done <= quota
        invariant Valid() && nodes == old(nodes) + tasks[submitted..to]
        invariant Contents() == old(Contents()) + Refs(b, submitted, to)
        invariant forall k :: to <= k < |tasks| ==> tasks[k].next == null && tasks[k] !in nodes
      {
        assert TaskRef(b, to) !in Refs(b, submitted, to);
        Enqueue(tasks[to]);
        to := to + 1;
        assert tasks[submitted..to] == tasks[submitted..to - 1] + [tasks[to - 1]];
        assert Refs(b, submitted, to) == Refs(b, submitted, to - 1) + [TaskRef(b, to - 1)];
        assert Contents() == (old(Contents()) + Refs(b, submitted, to - 1)) + [TaskRef(b, to - 1)];
      }
    }

    /** The loop with which a stopped batch takes back what it left queued: every task
        it submitted that has not finished and is still in the queue. `taken` is how
        many there were. */
    method TakeBackAll(tasks: seq<TaskNode>, b: nat, submitted: nat, finished: seq<bool>) returns (taken: nat)
      requires Valid() && submitted <= |tasks| == |finished|
      requires forall k :: 0 <= k < |tasks| ==> tasks[k].ref == TaskRef(b, k)
      requires Owed(nodes, tasks[..submitted], b, finished, 0)
      modifies this, nodes
      ensures Valid() && Contents() == WithoutGather(old(Contents()), b)
      ensures taken == |old(Contents())| - |Contents()|
    {
      taken := 0;
      var i := 0;
      ghost var all, mine, was := nodes, tasks[..submitted], Contents();
      while i < submitted
        invariant 0 <= i <= submitted && Valid()
        invariant Within(nodes, all)
        invariant Owed(nodes, mine, b, finished, i)
        invariant WithoutGather(Contents(), b) == WithoutGather(was, b)
        invariant taken == |was| - |Contents()|
      {
        ghost var before := nodes;
        if !finished[i] {
          var found := TakeBack(tasks[i]);
          if found {
            taken := taken + 1;
          }
        }
        OwedNext(before, nodes, mine, b, finished, i);
        i := i + 1;
      }
      NothingOwed(nodes, mine, b, finished);
      NoneOfGather(Contents(), b);
    }

    method TakeBack(task: TaskNode) returns (found: bool)
      requires Valid()
      modifies this, nodes
      ensures Valid() && task !in nodes && Within(nodes, old(nodes))
      ensures WithoutGather(Contents(), task.ref.b) == WithoutGather(old(Contents()), task.ref.b)
      ensures |Contents()| == |old(Contents())| - if found then 1 else 0
    {
      ghost var before := nodes;
      found := Unqueue(task);
      if found {
        NodeRef(before, task);
        OneTakenBack(RefsOf(before), task.ref);
      }
    }
  }

  ghost predicate Within(nodes: seq<TaskNode>, all: seq<TaskNode>) {
    forall n :: n in nodes ==> n in all
  }

  /** What a batch may still have in the queue: its own unfinished tasks from `i` on. */
  ghost predicate Owed(nodes: seq<TaskNode>, tasks: seq<TaskNode>, b: nat, finished: seq<bool>, i: int) {
    |tasks| <= |finished| && forall n :: n in nodes && n.ref.b == b ==> IsOwed(n, tasks, finished, i)
  }

  predicate IsOwed(n: TaskNode, tasks: seq<TaskNode>, finished: seq<bool>, i: int)
    requires |tasks| <= |finished|
  {
    i <= n.ref.i < |tasks| && !finished[n.ref.i] && n == tasks[n.ref.i]
  }

  lemma OwedNext(before: seq<TaskNode>, nodes: seq<TaskNode>, tasks: seq<TaskNode>, b: nat, finished: seq<bool>, i: nat)
    requires Owed(before, tasks, b, finished, i) && i < |tasks|
    requires Within(nodes, before)
    requires finished[i] || tasks[i] !in nodes
    ensures Owed(nodes, tasks, b, finished, i + 1)
  {
    forall n | n in nodes && n.ref.b == b ensures IsOwed(n, tasks, finished, i + 1) {
      assert IsOwed(n, tasks, finished, i);
    }
  }

  lemma NothingOwed(nodes: seq<TaskNode>, tasks: seq<TaskNode>, b: nat, finished: seq<bool>)
    requires Owed(nodes, tasks, b, finished, |tasks|)
    ensures forall k :: 0 <= k < |nodes| ==> RefsOf(nodes)[k].b != b
  {
    forall k | 0 <= k < |nodes| ensures RefsOf(nodes)[k].b != b {
      assert nodes[k].ref.b == b ==> IsOwed(nodes[k], tasks, finished, |tasks|);
    }
  }

  lemma DistinctNodes(nodes: seq<TaskNode>)
    requires NoDup(RefsOf(nodes))
    ensures NoDup(nodes)
  {
    forall i, j | 0 <= i < j < |nodes| ensures nodes[i] != nodes[j] {
      assert RefsOf(nodes)[i] != RefsOf(nodes)[j];
    }
  }

  lemma NodeRef(nodes: seq<TaskNode>, n: TaskNode)
    requires n in nodes
    ensures n.ref in RefsOf(nodes)
  {
    var k :| 0 <= k < |nodes| && nodes[k] == n;
    assert RefsOf(nodes)[k] == n.ref;
  }

  lemma CutRefs(nodes: seq<TaskNode>, k: nat)
    requires k < |nodes| && NoDup(RefsOf(nodes))
    ensures RefsOf(nodes[..k] + nodes[k + 1..]) == RefsOf(nodes)[..k] + RefsOf(nodes)[k + 1..]
    ensures NoDup(RefsOf(nodes[..k] + nodes[k + 1..]))
  {
    assert RefsOf(nodes[..k] + nodes[k + 1..]) == RefsOf(nodes)[..k] + RefsOf(nodes)[k + 1..];
    CutNoDup(RefsOf(nodes), k);
  }

  /** Taking out one task of a gather leaves the rest of the queue the same. */
  lemma {:induction false} WithoutOneOfGather(q: seq<TaskRef>, r: TaskRef)
    ensures WithoutGather(Without(q, r), r.b) == WithoutGather(q, r.b)
  {
    if q != [] {
      WithoutOneOfGather(q[1..], r);
      if q[0] != r {
        assert Without(q, r) == [q[0]] + Without(q[1..], r);
        assert Without(q, r)[1..] == Without(q[1..], r);
      }
    }
  }

  lemma OneTakenBack(q: seq<TaskRef>, r: TaskRef)
    requires NoDup(q) && r in q
    ensures WithoutGather(Without(q, r), r.b) == WithoutGather(q, r.b) && |Without(q, r)| == |q| - 1
  {
    var k :| 0 <= k < |q| && q[k] == r;
    WithoutAt(q, k);
    WithoutOneOfGather(q, r);
  }

  lemma {:induction false} NoneOfGather(q: seq<TaskRef>, b: nat)
    requires forall k :: 0 <= k < |q| ==> q[k].b != b
    ensures WithoutGather(q, b) == q
  {
    if q != [] { NoneOfGather(q[1..], b); }
  }
}
