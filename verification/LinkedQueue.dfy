/** The linked FIFO queue of `utils/src/queue.c` on heap nodes.  `Contents()` is the abstract sequence; a comparator
    with its target already supplied is a predicate `matches` on elements. */
module LinkedQueue {
  import opened Common

  // ------------------------------------------------------------------------------- what the operations mean

  // The first element that matches (a lookup), and the sequence without it (a removal).
  function FirstMatch<T>(s: seq<T>, matches: T -> bool): Option<T> {
    if s == [] then None else if matches(s[0]) then Some(s[0]) else FirstMatch(s[1..], matches)
  }

  function RemoveFirst<T>(s: seq<T>, matches: T -> bool): seq<T> {
    if s == [] then [] else if matches(s[0]) then s[1..] else [s[0]] + RemoveFirst(s[1..], matches)
  }

  // Lookup and removal both act on the least matching index, and on nothing when there is none.
  lemma {:induction false} MatchAt<T>(s: seq<T>, matches: T -> bool, k: nat)
    requires k <= |s| && (forall i :: 0 <= i < k ==> !matches(s[i])) && (k < |s| ==> matches(s[k]))
    ensures FirstMatch(s, matches) == if k < |s| then Some(s[k]) else None
    ensures RemoveFirst(s, matches) == if k < |s| then s[..k] + s[k + 1..] else s
  {
    if k > 0 {
      MatchAt(s[1..], matches, k - 1);
      assert s == [s[0]] + s[1..];
      if k < |s| {
        assert s[..k] == [s[0]] + s[1..][..k - 1];
        assert s[1..][k..] == s[k + 1..];
      }
    }
  }

  lemma {:induction false} RemovedAt<T>(s: seq<T>, matches: T -> bool) returns (k: nat)
    ensures k <= |s| && (forall i :: 0 <= i < k ==> !matches(s[i])) && (k < |s| ==> matches(s[k]))
    ensures RemoveFirst(s, matches) == if k < |s| then s[..k] + s[k + 1..] else s
  {
    k := 0;
    while k < |s| && !matches(s[k])
      invariant k <= |s| && forall i :: 0 <= i < k ==> !matches(s[i])
    {
      k := k + 1;
    }
    MatchAt(s, matches, k);
  }

  // After a removal the lookup finds nothing, if at most one element matched.
  lemma {:induction false} RemovedIsGone<T>(s: seq<T>, matches: T -> bool)
    requires forall i, j :: 0 <= i < j < |s| ==> !(matches(s[i]) && matches(s[j]))
    ensures FirstMatch(RemoveFirst(s, matches), matches) == None
  {
    if s != [] {
      if matches(s[0]) {
        MatchAt(s[1..], matches, |s| - 1);
      } else {
        RemovedIsGone(s[1..], matches);
        assert ([s[0]] + RemoveFirst(s[1..], matches))[1..] == RemoveFirst(s[1..], matches);
      }
    }
  }

  // ---------------------------------------------------------------------------------------- the heap queue

  class QueueNode<T> {
    const elem: T
    var next: QueueNode?<T>

    constructor (elem: T)
      ensures this.elem == elem && next == null
    {
      this.elem := elem;
      next := null;
    }
  }

  ghost function Elems<T>(nodes: seq<QueueNode<T>>): (s: seq<T>)
    ensures |s| == |nodes| && forall i :: 0 <= i < |s| ==> s[i] == nodes[i].elem
  {
    seq(|nodes|, i requires 0 <= i < |nodes| => nodes[i].elem)
  }

  lemma Unlinked<T>(nodes: seq<QueueNode<T>>, k: nat)
    requires k < |nodes|
    ensures var kept := nodes[..k] + nodes[k + 1..];
            Elems(kept) == Elems(nodes)[..k] + Elems(nodes)[k + 1..] &&
            forall i :: 0 <= i < |kept| ==> kept[i] == nodes[if i < k then i else i + 1]
  {
  }

  class Queue<T> {
    var first: QueueNode?<T>
    var last: QueueNode?<T>       // stale when the queue is empty
    var numElems: int
    ghost var nodes: seq<QueueNode<T>>
    ghost var Repr: set<QueueNode<T>>

    // The chain from `first` is acyclic, ends at `last`, and is as long as the count says.
    ghost predicate Chained()
      reads this, Repr
    {
      && (forall n :: n in nodes ==> n in Repr)
      && numElems == |nodes|
      && (first == null <==> nodes == [])
      && (nodes != [] ==> first == nodes[0] && last == nodes[|nodes| - 1] && last.next == null)
      && (forall i {:trigger nodes[i].next} :: 0 <= i < |nodes| - 1 ==> nodes[i].next == nodes[i + 1])
      && (forall i, j :: 0 <= i < j < |nodes| ==> nodes[i] != nodes[j])
    }

    ghost function Contents(): seq<T>
      reads this
    {
      Elems(nodes)
    }

    // What the heap spells, if it is a queue at all.
    ghost function Meaning(): Option<seq<T>>
      reads this, Repr
    {
      if Chained() then Some(Contents()) else None
    }

    ghost predicate Valid()
      reads this, Repr
    {
      Meaning().Some?
    }

    constructor ()
      ensures Valid() && Contents() == [] && Repr == {}
    {
      first, last, numElems, nodes, Repr := null, null, 0, [], {};
    }

    method Enqueue(elem: T)
      requires Valid()
      modifies this, Repr
      ensures Valid() && Contents() == old(Contents()) + [elem] && old(Repr) <= Repr && fresh(Repr - old(Repr))
    {
      var node := new QueueNode(elem);
      if first == null {
        first := node;
        last := node;
      } else {
        last.next := node;
        last := node;
      }
      numElems := numElems + 1;
      nodes, Repr := nodes + [node], Repr + {node};
    }

    method Dequeue() returns (r: Option<T>)
      requires Valid()
      modifies this
      ensures Valid() && Repr == old(Repr)
      ensures old(Contents()) == [] ==> r == None && Contents() == []
      ensures old(Contents()) != [] ==> r == Some(old(Contents())[0]) && Contents() == old(Contents())[1..]
    {
      if first == null {
        return None;
      }
      var node := first;
      first := node.next;
      r := Some(node.elem);
      numElems := numElems - 1;
      nodes := nodes[1..];
    }

    method GetElem(matches: T -> bool) returns (r: Option<T>)
      requires Valid()
      ensures r == FirstMatch(Contents(), matches)
    {
      var node := first;
      ghost var k := 0;
      while node != null
        invariant 0 <= k <= |nodes|
        invariant node == if k < |nodes| then nodes[k] else null
        invariant forall i :: 0 <= i < k ==> !matches(nodes[i].elem)
        decreases |nodes| - k
      {
        if matches(node.elem) {
          MatchAt(Contents(), matches, k);
          return Some(node.elem);
        }
        node := node.next;
        k := k + 1;
      }
      MatchAt(Contents(), matches, k);
      return None;
    }

    lemma Ends(k: nat)
      requires Valid() && k < |nodes|
      ensures (nodes[k] == first <==> k == 0) && (nodes[k] == last <==> k == |nodes| - 1)
    {
    }

    // Takes the k-th node out of the chain: it is the first, the last, or in the middle.
    method Unlink(nodeprev: QueueNode?<T>, node: QueueNode<T>, ghost k: nat)
      requires Valid() && k < |nodes| && node == nodes[k] && (k > 0 ==> nodeprev == nodes[k - 1])
      modifies this, Repr
      ensures Valid() && nodes == old(nodes[..k] + nodes[k + 1..]) && Repr == old(Repr)
    {
      Ends(k);
      if node == first {
        UnlinkFirst(node, k);
      } else if node == last {
        UnlinkLast(nodeprev, k);
      } else {
        UnlinkMiddle(nodeprev, node, k);
      }
    }

    method UnlinkFirst(node: QueueNode<T>, ghost k: nat)
      requires Valid() && k == 0 < |nodes| && node == nodes[k]
      modifies this`first, this`numElems, this`nodes
      ensures Valid() && nodes == old(nodes[..k] + nodes[k + 1..])
    {
      ghost var rest := nodes[1..];
      assert nodes[..k] + nodes[k + 1..] == rest;
      first := node.next;
      numElems := numElems - 1;
      nodes := rest;
    }

    method UnlinkLast(nodeprev: QueueNode<T>, ghost k: nat)
      requires Valid() && 0 < k == |nodes| - 1 && nodeprev == nodes[k - 1]
      modifies this`last, this`numElems, this`nodes, nodeprev
      ensures Valid() && nodes == old(nodes[..k] + nodes[k + 1..])
    {
      assert nodes[..k] + nodes[k + 1..] == nodes[..k];
      last := nodeprev;
      nodeprev.next := null;
      numElems := numElems - 1;
      nodes := nodes[..k];
    }

    method UnlinkMiddle(nodeprev: QueueNode<T>, node: QueueNode<T>, ghost k: nat)
      requires Valid() && 0 < k < |nodes| - 1 && node == nodes[k] && nodeprev == nodes[k - 1]
      modifies this`numElems, this`nodes, nodeprev
      ensures Valid() && nodes == old(nodes[..k] + nodes[k + 1..])
    {
      ghost var was := nodes;
      Unlinked(was, k);
      nodeprev.next := node.next;
      numElems := numElems - 1;
      nodes := was[..k] + was[k + 1..];
      forall i | 0 <= i < |nodes| - 1 ensures nodes[i].next == nodes[i + 1] {
        assert was[if i < k then i else i + 1] == nodes[i] && was[if i + 1 < k then i + 1 else i + 2] == nodes[i + 1];
      }
    }

    // The walk of remove_elem: the first node that matches, and the one before it.
    method Search(matches: T -> bool) returns (nodeprev: QueueNode?<T>, node: QueueNode?<T>, ghost k: nat)
      requires Valid()
      ensures k <= |nodes| && node == (if k < |nodes| then nodes[k] else null) && (k > 0 ==> nodeprev == nodes[k - 1])
      ensures RemoveFirst(Contents(), matches) ==
              if k == |nodes| then Contents() else Contents()[..k] + Contents()[k + 1..]
    {
      nodeprev := first;
      node := nodeprev;
      k := 0;
      while node != null && !matches(node.elem)
        invariant 0 <= k <= |nodes|
        invariant node == if k < |nodes| then nodes[k] else null
        invariant k > 0 ==> nodeprev == nodes[k - 1]
        invariant forall i :: 0 <= i < k ==> !matches(nodes[i].elem)
        decreases |nodes| - k
      {
        nodeprev := node;
        node := node.next;
        k := k + 1;
      }
      MatchAt(Contents(), matches, k);
    }

    method RemoveElem(matches: T -> bool)
      requires Valid()
      modifies this, Repr
      ensures Valid() && Contents() == RemoveFirst(old(Contents()), matches) && Repr == old(Repr)
    {
      var nodeprev, node, k := Search(matches);
      if node != null {
        Unlinked(nodes, k);
        Unlink(nodeprev, node, k);
      }
    }

    // The source's array of element pointers, NULL-filled before the walk.
    method GetAllElems() returns (all: array<Option<T>>)
      requires Valid()
      ensures fresh(all) && all.Length == |Contents()|
      ensures forall i :: 0 <= i < all.Length ==> all[i] == Some(Contents()[i])
    {
      var n := NumElems();
      all := new Option<T>[n](_ => None);
      var i := 0;
      var node := first;
      while node != null
        invariant 0 <= i <= n
        invariant node == if i < |nodes| then nodes[i] else null
        invariant forall j :: 0 <= j < i ==> all[j] == Some(nodes[j].elem)
        decreases n - i
      {
        all[i] := Some(node.elem);
        i := i + 1;
        node := node.next;
      }
    }

    method NumElems() returns (n: int)
      requires Valid()
      ensures n == |Contents()|
    {
      n := numElems;
    }
  }

  // ---------------------------------------------------------------------------------- any mix of operations

  datatype Op<!T> = Put(elem: T) | Take | Find(matches: T -> bool) | Remove(matches: T -> bool)

  // What one operation returns and leaves on the abstract sequence.
  function Answer<T>(s: seq<T>, op: Op<T>): Option<T> {
    match op
    case Take => if s == [] then None else Some(s[0])
    case Find(m) => FirstMatch(s, m)
    case _ => None
  }

  function After<T>(s: seq<T>, op: Op<T>): seq<T> {
    match op
    case Put(x) => s + [x]
    case Take => if s == [] then [] else s[1..]
    case Find(_) => s
    case Remove(m) => RemoveFirst(s, m)
  }

  function Answers<T>(s: seq<T>, ops: seq<Op<T>>): seq<Option<T>>
    decreases |ops|
  {
    if ops == [] then [] else [Answer(s, ops[0])] + Answers(After(s, ops[0]), ops[1..])
  }

  function AfterAll<T>(s: seq<T>, ops: seq<Op<T>>): seq<T>
    decreases |ops|
  {
    if ops == [] then s else AfterAll(After(s, ops[0]), ops[1..])
  }

  method PerformOne<T>(q: Queue<T>, op: Op<T>) returns (answer: Option<T>)
    requires q.Valid()
    modifies q, q.Repr
    ensures q.Valid() && answer == Answer(old(q.Contents()), op) && q.Contents() == After(old(q.Contents()), op)
    ensures old(q.Repr) <= q.Repr && fresh(q.Repr - old(q.Repr))
  {
    answer := None;
    match op {
      case Put(x) => q.Enqueue(x);
      case Take => answer := q.Dequeue();
      case Find(m) => answer := q.GetElem(m);
      case Remove(m) => q.RemoveElem(m);
    }
  }

  // The heap queue answers any mix of operations as the abstract sequence does, and stays well formed.
  method Perform<T>(q: Queue<T>, ops: seq<Op<T>>) returns (answers: seq<Option<T>>)
    requires q.Valid()
    modifies q, q.Repr
    ensures q.Valid()
    ensures answers == Answers(old(q.Contents()), ops) && q.Contents() == AfterAll(old(q.Contents()), ops)
    ensures old(q.Repr) <= q.Repr && fresh(q.Repr - old(q.Repr))
    decreases |ops|
  {
    if ops == [] {
      return [];
    }
    var answer := PerformOne(q, ops[0]);
    var more := Perform(q, ops[1..]);
    answers := [answer] + more;
  }

  // Elements taken, in order, and elements put, in order.
  function Taken<T>(answers: seq<Option<T>>, ops: seq<Op<T>>): seq<T>
    requires |answers| == |ops|
  {
    if ops == [] then [] else
    (if ops[0].Take? && answers[0].Some? then [answers[0].value] else []) + Taken(answers[1..], ops[1..])
  }

  function PutIn<T>(ops: seq<Op<T>>): seq<T> {
    if ops == [] then [] else (if ops[0].Put? then [ops[0].elem] else []) + PutIn(ops[1..])
  }

  // First in, first out: without removals, what was there and what was put in come out in that order, then remain.
  lemma {:induction false} Fifo<T>(s: seq<T>, ops: seq<Op<T>>)
    requires forall i :: 0 <= i < |ops| ==> !ops[i].Remove?
    ensures |Answers(s, ops)| == |ops|
    ensures s + PutIn(ops) == Taken(Answers(s, ops), ops) + AfterAll(s, ops)
    decreases |ops|
  {
    if ops != [] {
      var s' := After(s, ops[0]);
      Fifo(s', ops[1..]);
      var out := if ops[0].Take? && s != [] then [s[0]] else [];
      var put := if ops[0].Put? then [ops[0].elem] else [];
      assert s + put == out + s';
      TakenCons(Answer(s, ops[0]), Answers(s', ops[1..]), ops);
      Regroup(s, put, PutIn(ops[1..]), out, s', Taken(Answers(s', ops[1..]), ops[1..]), AfterAll(s', ops[1..]));
    }
  }

  lemma TakenCons<T>(answer: Option<T>, more: seq<Option<T>>, ops: seq<Op<T>>)
    requires ops != [] && |more| == |ops| - 1
    ensures Taken([answer] + more, ops) ==
            (if ops[0].Take? && answer.Some? then [answer.value] else []) + Taken(more, ops[1..])
  {
    assert ([answer] + more)[1..] == more;
  }

  lemma Regroup<T>(s: seq<T>, put: seq<T>, puts: seq<T>, out: seq<T>, s': seq<T>, outs: seq<T>, left: seq<T>)
    requires s + put == out + s' && s' + puts == outs + left
    ensures s + (put + puts) == (out + outs) + left
  {
    assert s + (put + puts) == (s + put) + puts == out + (s' + puts);
  }
}
