/**
 Registering a flow (flowProducer.js). Children are registered concurrently, so a
 node stands for a set of traces: every interleaving of what its children do.
 */
module Flows {
  import opened Redis

  /** A node of a flow, with the id its job gets. `own` are parents the caller lists
      in the node's options, `flow` says whether the caller set a flow flag there. */
  datatype Node = Node(id: Id, fanOut: bool, flow: bool, own: seq<Id>, children: seq<Node>)

  /** One call of Queue.add: the job, the parents it waits for, and whether its
      completion will call unblock. */
  datatype Reg = Reg(id: Id, parents: seq<Id>, flagged: bool)

  function ChildIds(n: Node): seq<Id>
  {
    seq(|n.children|, i requires 0 <= i < |n.children| => n.children[i].id)
  }

  // ---- The traces of processNode ----

  ghost predicate Interleaves(a: seq<Reg>, b: seq<Reg>, t: seq<Reg>)
    decreases |t|
  {
    if t == [] then a == [] && b == []
    else
      || (a != [] && a[0] == t[0] && Interleaves(a[1..], b, t[1..]))
      || (b != [] && b[0] == t[0] && Interleaves(a, b[1..], t[1..]))
  }

  /** `linked` is what a fan-out node passes down to its children. A fan-out node is
      registered before its children, a fan-in node after them. */
  ghost predicate NodeTrace(n: Node, linked: seq<Id>, isChild: bool, t: seq<Reg>)
    decreases n, 1, 0
  {
    && t != []
    && if n.fanOut then
         t[0] == Reg(n.id, linked + n.own, true) && ChildrenTrace(n, 0, t[1..])
       else
         t[|t| - 1] == Reg(n.id, linked + n.own + ChildIds(n), isChild || n.flow) && ChildrenTrace(n, 0, t[..|t| - 1])
  }

  /** Any interleaving of the traces of the children from the k-th on. */
  ghost predicate ChildrenTrace(n: Node, k: nat, t: seq<Reg>)
    requires k <= |n.children|
    decreases n, 0, |n.children| - k
  {
    if k == |n.children| then t == []
    else exists a, b :: NodeTrace(n.children[k], Passed(n), true, a) && ChildrenTrace(n, k + 1, b) && Interleaves(a, b, t)
  }

  function Passed(n: Node): seq<Id>
  {
    if n.fanOut then [n.id] else []
  }

  lemma {:induction false} AfterEachOther(a: seq<Reg>, b: seq<Reg>)
    ensures Interleaves(a, b, a + b)
    decreases |a| + |b|
  {
    if a == [] && b == [] {
    } else if a == [] {
      assert a + b == b && a + b[1..] == b[1..];
      AfterEachOther(a, b[1..]);
    } else {
      assert (a + b)[1..] == a[1..] + b;
      AfterEachOther(a[1..], b);
    }
  }

  /** processNode with one child after the other: one of the interleavings. */
  method ProcessNode(n: Node, linked: seq<Id>, isChild: bool) returns (t: seq<Reg>)
    ensures NodeTrace(n, linked, isChild, t)
    decreases n
  {
    t := [];
    if n.fanOut {
      t := [Reg(n.id, linked + n.own, true)];
    }
    var i := |n.children|;
    var below: seq<Reg> := [];
    while i > 0
      invariant 0 <= i <= |n.children|
      invariant ChildrenTrace(n, i, below)
    {
      i := i - 1;
      var a := ProcessNode(n.children[i], Passed(n), true);
      AfterEachOther(a, below);
      below := a + below;
    }
    t := t + below;
    if n.fanOut {
      assert t[1..] == below;
    } else {
      t := t + [Reg(n.id, linked + n.own + ChildIds(n), isChild || n.flow)];
      assert t[..|t| - 1] == below;
    }
  }

  // ---- Well-made flows ----

  function IdsOf(n: Node): set<Id>
    decreases n, 1, 0
  {
    {n.id} + IdsFrom(n, 0)
  }

  function IdsFrom(n: Node, k: nat): set<Id>
    requires k <= |n.children|
    decreases n, 0, |n.children| - k
  {
    if k == |n.children| then {} else IdsOf(n.children[k]) + IdsFrom(n, k + 1)
  }

  /** Every node has its own id. */
  predicate Distinct(n: Node)
    decreases n, 1, 0
  {
    n.id !in IdsFrom(n, 0) && DistinctFrom(n, 0)
  }

  predicate DistinctFrom(n: Node, k: nat)
    requires k <= |n.children|
    decreases n, 0, |n.children| - k
  {
    k == |n.children|
    || (Distinct(n.children[k]) && IdsOf(n.children[k]) !! IdsFrom(n, k + 1) && DistinctFrom(n, k + 1))
  }

  /** The callers' own parent lists name nobody twice, and only jobs of `outside`. */
  ghost predicate OwnFine(n: Node, outside: set<Id>)
  {
    NoDup(n.own) && (forall p :: p in n.own ==> p in outside)
    && forall i :: 0 <= i < |n.children| ==> OwnFine(n.children[i], outside)
  }

  // ---- What holds of every trace ----

  function IdsIn(t: seq<Reg>): set<Id>
  {
    set r | r in t :: r.id
  }

  function Flagged(t: seq<Reg>): set<Id>
  {
    set r | r in t && r.flagged :: r.id
  }

  /** Every parent is known at registration: from outside, or registered before and flagged. */
  ghost predicate ParentsFirst(t: seq<Reg>, known: set<Id>)
    decreases |t|
  {
    t == [] || ((forall p :: p in t[0].parents ==> p in known) && ParentsFirst(t[1..], known + Flagged(t[..1])))
  }

  ghost predicate Once(t: seq<Reg>)
  {
    forall i, j :: 0 <= i < j < |t| ==> t[i].id != t[j].id
  }

  ghost predicate NoParentTwice(t: seq<Reg>)
  {
    forall r :: r in t ==> NoDup(r.parents)
  }

  lemma {:induction false} MoreKnown(t: seq<Reg>, known: set<Id>, more: set<Id>)
    requires ParentsFirst(t, known) && known <= more
    ensures ParentsFirst(t, more)
    decreases |t|
  {
    if t == [] {
    } else {
      MoreKnown(t[1..], known + Flagged(t[..1]), more + Flagged(t[..1]));
    }
  }

  lemma {:induction false} MixedOrder(a: seq<Reg>, b: seq<Reg>, t: seq<Reg>, known: set<Id>)
    requires Interleaves(a, b, t) && ParentsFirst(a, known) && ParentsFirst(b, known)
    ensures ParentsFirst(t, known)
    decreases |t|
  {
    if t == [] {
    } else {
      var more := known + Flagged(t[..1]);
      if a != [] && a[0] == t[0] && Interleaves(a[1..], b, t[1..]) {
        assert a[..1] == t[..1];
        MoreKnown(b, known, more);
        MixedOrder(a[1..], b, t[1..], more);
      } else {
        assert b[..1] == t[..1];
        MoreKnown(a, known, more);
        MixedOrder(a, b[1..], t[1..], more);
      }
    }
  }

  lemma {:induction false} MixedMembers(a: seq<Reg>, b: seq<Reg>, t: seq<Reg>)
    requires Interleaves(a, b, t)
    ensures forall r :: r in t <==> r in a || r in b
    decreases |t|
  {
    if t == [] {
    } else {
      assert t == [t[0]] + t[1..];
      if a != [] && a[0] == t[0] && Interleaves(a[1..], b, t[1..]) {
        assert a == [a[0]] + a[1..];
        MixedMembers(a[1..], b, t[1..]);
      } else {
        assert b == [b[0]] + b[1..];
        MixedMembers(a, b[1..], t[1..]);
      }
    }
  }

  lemma {:induction false} MixedOnce(a: seq<Reg>, b: seq<Reg>, t: seq<Reg>)
    requires Interleaves(a, b, t) && Once(a) && Once(b) && IdsIn(a) !! IdsIn(b)
    ensures Once(t)
    decreases |t|
  {
    if t == [] {
    } else {
      if a != [] && a[0] == t[0] && Interleaves(a[1..], b, t[1..]) {
        MixedMembers(a[1..], b, t[1..]);
        assert IdsIn(a[1..]) <= IdsIn(a);
        MixedOnce(a[1..], b, t[1..]);
        OnceCons(a, b, t);
      } else {
        MixedMembers(a, b[1..], t[1..]);
        assert IdsIn(b[1..]) <= IdsIn(b);
        MixedOnce(a, b[1..], t[1..]);
        OnceCons(b, a, t);
      }
    }
  }

  lemma OnceCons(a: seq<Reg>, b: seq<Reg>, t: seq<Reg>)
    requires a != [] && t != [] && a[0] == t[0] && Once(a) && IdsIn(a) !! IdsIn(b) && Once(t[1..])
    requires forall r :: r in t[1..] <==> r in a[1..] || r in b
    ensures Once(t)
  {
    assert a[0].id in IdsIn(a);
    forall i, j | 0 <= i < j < |t|
      ensures t[i].id != t[j].id
    {
      assert t[j] == t[1..][j - 1] && t[j] in t[1..];
      if i > 0 {
        assert t[i] == t[1..][i - 1];
      } else if t[j] in b {
        assert t[j].id in IdsIn(b);
      } else {
        var k :| 0 <= k < |a[1..]| && a[1..][k] == t[j];
        assert a[k + 1] == t[j];
      }
    }
  }

  lemma {:induction false} KnownLast(t: seq<Reg>, r: Reg, known: set<Id>)
    requires ParentsFirst(t, known) && forall p :: p in r.parents ==> p in known + Flagged(t)
    ensures ParentsFirst(t + [r], known)
    decreases |t|
  {
    if t == [] {
      assert t + [r] == [r];
    } else {
      assert (t + [r])[1..] == t[1..] + [r] && (t + [r])[..1] == t[..1];
      assert Flagged(t) == Flagged(t[..1]) + Flagged(t[1..]) by {
        assert t == t[..1] + t[1..];
      }
      KnownLast(t[1..], r, known + Flagged(t[..1]));
    }
  }

  /** What a trace of a node, or of children, registers. */
  ghost predicate Registers(t: seq<Reg>, ids: set<Id>)
  {
    IdsIn(t) == ids && Once(t) && NoParentTwice(t)
  }

  lemma {:induction false} NodeOrder(n: Node, linked: seq<Id>, isChild: bool, t: seq<Reg>, outside: set<Id>, known: set<Id>)
    requires NodeTrace(n, linked, isChild, t) && OwnFine(n, outside)
    requires outside <= known && forall p :: p in linked ==> p in known
    ensures ParentsFirst(t, known)
    ensures isChild ==> n.id in Flagged(t)
    decreases n, 1, 0
  {
    if n.fanOut {
      var more := known + Flagged(t[..1]);
      assert t[..1] == [t[0]];
      assert t[0] in t;
      ChildrenOrder(n, 0, t[1..], outside, more);
    } else {
      var kids := t[..|t| - 1];
      ChildrenOrder(n, 0, kids, outside, known);
      assert t == kids + [t[|t| - 1]];
      KnownLast(kids, t[|t| - 1], known);
    }
  }

  lemma {:induction false} ChildrenOrder(n: Node, k: nat, t: seq<Reg>, outside: set<Id>, known: set<Id>)
    requires k <= |n.children| && ChildrenTrace(n, k, t) && OwnFine(n, outside)
    requires outside <= known && forall p :: p in Passed(n) ==> p in known
    ensures ParentsFirst(t, known)
    ensures forall i :: k <= i < |n.children| ==> n.children[i].id in Flagged(t)
    decreases n, 0, |n.children| - k
  {
    if k == |n.children| {
    } else {
      var a, b :| NodeTrace(n.children[k], Passed(n), true, a) && ChildrenTrace(n, k + 1, b) && Interleaves(a, b, t);
      NodeOrder(n.children[k], Passed(n), true, a, outside, known);
      ChildrenOrder(n, k + 1, b, outside, known);
      MixedOrder(a, b, t, known);
      MixedMembers(a, b, t);
    }
  }

  lemma {:induction false} ChildIdsDistinct(n: Node, k: nat)
    requires k <= |n.children| && DistinctFrom(n, k)
    ensures forall i :: k <= i < |n.children| ==> n.children[i].id in IdsFrom(n, k)
    ensures forall i, j :: k <= i < j < |n.children| ==> n.children[i].id != n.children[j].id
    decreases |n.children| - k
  {
    if k == |n.children| {
    } else {
      ChildIdsDistinct(n, k + 1);
    }
  }

  lemma ParentsDistinct(n: Node, linked: seq<Id>, outside: set<Id>)
    requires Distinct(n) && OwnFine(n, outside) && IdsOf(n) !! outside
    requires |linked| <= 1 && forall p :: p in linked ==> p !in outside && p !in IdsOf(n)
    ensures NoDup(linked + n.own + ChildIds(n))
  {
    ChildIdsDistinct(n, 0);
    NoDupConcat(linked, n.own);
    forall p | p in ChildIds(n)
      ensures p in IdsOf(n) && p !in linked + n.own
    {
      var i :| 0 <= i < |n.children| && p == n.children[i].id;
      assert p in IdsFrom(n, 0);
    }
    NoDupConcat(linked + n.own, ChildIds(n));
  }

  lemma {:induction false} NodeRegisters(n: Node, linked: seq<Id>, isChild: bool, t: seq<Reg>, outside: set<Id>)
    requires NodeTrace(n, linked, isChild, t) && Distinct(n) && OwnFine(n, outside) && IdsOf(n) !! outside
    requires |linked| <= 1 && forall p :: p in linked ==> p !in outside && p !in IdsOf(n)
    ensures Registers(t, IdsOf(n))
    decreases n, 1, 0
  {
    ParentsDistinct(n, linked, outside);
    if n.fanOut {
      ChildrenRegister(n, 0, t[1..], outside);
      assert t == [t[0]] + t[1..];
      assert NoDup(linked + n.own) by {
        var all := linked + n.own + ChildIds(n);
        forall i, j | 0 <= i < j < |linked + n.own|
          ensures (linked + n.own)[i] != (linked + n.own)[j]
        {
          assert all[i] == (linked + n.own)[i] && all[j] == (linked + n.own)[j];
        }
      }
      RegistersFirst(n, t);
    } else {
      var kids := t[..|t| - 1];
      ChildrenRegister(n, 0, kids, outside);
      assert t == kids + [t[|t| - 1]];
      RegistersLast(n, t);
    }
  }

  lemma RegistersFirst(n: Node, t: seq<Reg>)
    requires t != [] && t[0].id == n.id && NoDup(t[0].parents) && n.id !in IdsFrom(n, 0)
    requires Registers(t[1..], IdsFrom(n, 0))
    ensures Registers(t, IdsOf(n))
  {
    assert t == [t[0]] + t[1..];
    forall i, j | 0 <= i < j < |t|
      ensures t[i].id != t[j].id
    {
      assert t[j] == t[1..][j - 1] && t[j] in t[1..] && t[j].id in IdsIn(t[1..]);
      if i > 0 {
        assert t[i] == t[1..][i - 1];
      }
    }
  }

  lemma RegistersLast(n: Node, t: seq<Reg>)
    requires t != [] && t[|t| - 1].id == n.id && NoDup(t[|t| - 1].parents) && n.id !in IdsFrom(n, 0)
    requires Registers(t[..|t| - 1], IdsFrom(n, 0))
    ensures Registers(t, IdsOf(n))
  {
    var kids := t[..|t| - 1];
    assert t == kids + [t[|t| - 1]];
    forall i, j | 0 <= i < j < |t|
      ensures t[i].id != t[j].id
    {
      assert t[i] == kids[i] && t[i] in kids && t[i].id in IdsIn(kids);
      if j < |t| - 1 {
        assert t[j] == kids[j];
      }
    }
  }

  lemma {:induction false} ChildrenRegister(n: Node, k: nat, t: seq<Reg>, outside: set<Id>)
    requires k <= |n.children| && ChildrenTrace(n, k, t) && DistinctFrom(n, k) && OwnFine(n, outside)
    requires IdsFrom(n, k) !! outside && n.id !in outside && n.id !in IdsFrom(n, k)
    ensures Registers(t, IdsFrom(n, k))
    decreases n, 0, |n.children| - k
  {
    if k == |n.children| {
    } else {
      var a, b :| NodeTrace(n.children[k], Passed(n), true, a) && ChildrenTrace(n, k + 1, b) && Interleaves(a, b, t);
      NodeRegisters(n.children[k], Passed(n), true, a, outside);
      ChildrenRegister(n, k + 1, b, outside);
      MixedMembers(a, b, t);
      MixedOnce(a, b, t);
    }
  }

  /** Whatever the interleaving, registering a flow adds every node once, never lists
      a parent twice, and lists only parents from outside the flow or registered
      earlier with a flag that makes their completion call unblock. */
  lemma FlowIsOrdered(root: Node, t: seq<Reg>, outside: set<Id>)
    requires NodeTrace(root, [], false, t) && Distinct(root) && OwnFine(root, outside) && IdsOf(root) !! outside
    ensures IdsIn(t) == IdsOf(root) && Once(t) && NoParentTwice(t) && ParentsFirst(t, outside)
  {
    NodeOrder(root, [], false, t, outside, outside);
    NodeRegisters(root, [], false, t, outside);
  }

  // ---- Which parents each job waits for, read off the tree ----

  /** m is a node of the tree under n. */
  ghost predicate PartOf(n: Node, m: Node)
    decreases n
  {
    m == n || exists i :: 0 <= i < |n.children| && PartOf(n.children[i], m)
  }

  /** The caller lists p for x, or x is a fan-in node and p one of its children, or p
      is a fan-out node and x one of its children. */
  ghost predicate WaitsFor(n: Node, x: Id, p: Id)
  {
    exists m :: PartOf(n, m) && (|| (m.id == x && p in m.own)
                                 || (m.id == x && !m.fanOut && HasChild(m, p))
                                 || (m.id == p && m.fanOut && HasChild(m, x)))
  }

  ghost predicate HasChild(m: Node, c: Id)
  {
    exists child :: child in m.children && child.id == c
  }

  lemma {:induction false} TracesHaveTheirIds(n: Node, linked: seq<Id>, isChild: bool, t: seq<Reg>)
    requires NodeTrace(n, linked, isChild, t)
    ensures IdsIn(t) == IdsOf(n)
    decreases n, 1, 0
  {
    if n.fanOut {
      ChildTracesHaveTheirIds(n, 0, t[1..]);
      assert t == [t[0]] + t[1..];
    } else {
      ChildTracesHaveTheirIds(n, 0, t[..|t| - 1]);
      assert t == t[..|t| - 1] + [t[|t| - 1]];
    }
  }

  lemma {:induction false} ChildTracesHaveTheirIds(n: Node, k: nat, t: seq<Reg>)
    requires k <= |n.children| && ChildrenTrace(n, k, t)
    ensures IdsIn(t) == IdsFrom(n, k)
    decreases n, 0, |n.children| - k
  {
    if k == |n.children| {
    } else {
      var a, b :| NodeTrace(n.children[k], Passed(n), true, a) && ChildrenTrace(n, k + 1, b) && Interleaves(a, b, t);
      TracesHaveTheirIds(n.children[k], Passed(n), true, a);
      ChildTracesHaveTheirIds(n, k + 1, b);
      MixedMembers(a, b, t);
    }
  }

  /** A registration among those of the children is one of some child. */
  lemma {:induction false} OfSomeChild(n: Node, k: nat, t: seq<Reg>, r: Reg) returns (i: nat, a: seq<Reg>)
    requires k <= |n.children| && ChildrenTrace(n, k, t) && r in t
    ensures k <= i < |n.children| && NodeTrace(n.children[i], Passed(n), true, a) && r in a
    decreases |n.children| - k
  {
    var first, rest :| NodeTrace(n.children[k], Passed(n), true, first) && ChildrenTrace(n, k + 1, rest) && Interleaves(first, rest, t);
    MixedMembers(first, rest, t);
    if r in first {
      i, a := k, first;
    } else {
      i, a := OfSomeChild(n, k + 1, rest, r);
    }
  }

  lemma {:induction false} ChildrenApart(n: Node, k: nat, i: nat)
    requires k <= i < |n.children| && DistinctFrom(n, k)
    ensures Distinct(n.children[i]) && IdsOf(n.children[i]) <= IdsFrom(n, k)
    ensures forall j :: k <= j < |n.children| && j != i ==> IdsOf(n.children[j]) !! IdsOf(n.children[i])
    decreases |n.children| - k
  {
    if i == k {
      forall j | k < j < |n.children|
        ensures IdsOf(n.children[j]) !! IdsOf(n.children[i])
      {
        ChildrenApart(n, k + 1, j);
      }
    } else {
      ChildrenApart(n, k + 1, i);
    }
  }

  lemma {:induction false} PartsHaveIds(n: Node, m: Node)
    requires PartOf(n, m)
    ensures m.id in IdsOf(n)
    ensures forall c :: HasChild(m, c) ==> c in IdsOf(n)
    decreases n
  {
    if m == n {
      forall c | HasChild(m, c)
        ensures c in IdsOf(n)
      {
        var i :| 0 <= i < |n.children| && n.children[i].id == c;
        IdOfChild(n, 0, i, c);
      }
    } else {
      var i :| 0 <= i < |n.children| && PartOf(n.children[i], m);
      PartsHaveIds(n.children[i], m);
      forall c | c in IdsOf(n.children[i])
        ensures c in IdsOf(n)
      {
        IdOfChild(n, 0, i, c);
      }
    }
  }

  lemma {:induction false} IdOfChild(n: Node, k: nat, i: nat, c: Id)
    requires k <= i < |n.children| && c in IdsOf(n.children[i])
    ensures c in IdsFrom(n, k)
    decreases |n.children| - k
  {
    if k < i {
      IdOfChild(n, k + 1, i, c);
    }
  }

  /** What the root of a tree of distinct ids waits for inside it. */
  lemma RootWaitsFor(n: Node, p: Id)
    requires Distinct(n)
    ensures WaitsFor(n, n.id, p) <==> p in n.own || (!n.fanOut && HasChild(n, p))
  {
    assert PartOf(n, n);
    if WaitsFor(n, n.id, p) {
      var m :| PartOf(n, m) && (|| (m.id == n.id && p in m.own)
                                || (m.id == n.id && !m.fanOut && HasChild(m, p))
                                || (m.id == p && m.fanOut && HasChild(m, n.id)));
      NotBelow(n, m);
    }
  }

  /** Nothing below the root has its id. */
  lemma NotBelow(n: Node, m: Node)
    requires Distinct(n) && PartOf(n, m)
    ensures m.id == n.id ==> m == n
    ensures !HasChild(m, n.id)
  {
    if m != n {
      var i :| 0 <= i < |n.children| && PartOf(n.children[i], m);
      ChildrenApart(n, 0, i);
      PartsHaveIds(n.children[i], m);
    } else if HasChild(m, n.id) {
      var i :| 0 <= i < |n.children| && n.children[i].id == n.id;
      ChildrenApart(n, 0, i);
      assert false;
    }
  }

  /** What a job below the i-th child waits for in the whole tree. */
  lemma ChildWaitsFor(n: Node, i: nat, x: Id, p: Id)
    requires Distinct(n) && i < |n.children| && x in IdsOf(n.children[i])
    ensures WaitsFor(n, x, p) <==> WaitsFor(n.children[i], x, p) || (n.fanOut && p == n.id && x == n.children[i].id)
  {
    var child := n.children[i];
    ChildrenApart(n, 0, i);
    if WaitsFor(child, x, p) {
      var m :| PartOf(child, m) && (|| (m.id == x && p in m.own)
                                    || (m.id == x && !m.fanOut && HasChild(m, p))
                                    || (m.id == p && m.fanOut && HasChild(m, x)));
      assert PartOf(n, m);
    }
    if n.fanOut && p == n.id && x == child.id {
      assert PartOf(n, n) && HasChild(n, x);
    }
    if WaitsFor(n, x, p) {
      var m :| PartOf(n, m) && (|| (m.id == x && p in m.own)
                                || (m.id == x && !m.fanOut && HasChild(m, p))
                                || (m.id == p && m.fanOut && HasChild(m, x)));
      NamedBelow(n, i, m, x);
    }
  }

  /** A node that has or names an id below the i-th child is below it, or is the root. */
  lemma NamedBelow(n: Node, i: nat, m: Node, x: Id)
    requires Distinct(n) && i < |n.children| && x in IdsOf(n.children[i]) && PartOf(n, m)
    requires m.id == x || HasChild(m, x)
    ensures PartOf(n.children[i], m) || (m == n && x == n.children[i].id)
  {
    ChildrenApart(n, 0, i);
    if m == n {
      var j :| 0 <= j < |n.children| && n.children[j].id == x;
      ChildrenApart(n, 0, j);
    } else {
      var j :| 0 <= j < |n.children| && PartOf(n.children[j], m);
      PartsHaveIds(n.children[j], m);
      ChildrenApart(n, 0, j);
    }
  }

  lemma ListedChildren(n: Node, p: Id)
    ensures p in ChildIds(n) <==> HasChild(n, p)
  {
    if HasChild(n, p) {
      var i :| 0 <= i < |n.children| && n.children[i].id == p;
      assert ChildIds(n)[i] == p;
    }
  }

  lemma {:induction false} NodeLists(n: Node, linked: seq<Id>, isChild: bool, t: seq<Reg>, r: Reg, p: Id)
    requires NodeTrace(n, linked, isChild, t) && Distinct(n) && r in t
    ensures r.id in IdsOf(n)
    ensures p in r.parents <==> WaitsFor(n, r.id, p) || (r.id == n.id && p in linked)
    ensures r.flagged <==> r.id != n.id || n.fanOut || isChild || n.flow
    decreases n
  {
    ListedChildren(n, p);
    var top, kids := if n.fanOut then t[0] else t[|t| - 1], if n.fanOut then t[1..] else t[..|t| - 1];
    if r == top {
      RootWaitsFor(n, p);
    } else {
      var i, a := OfSomeChild(n, 0, kids, r);
      ChildrenApart(n, 0, i);
      NodeLists(n.children[i], Passed(n), true, a, r, p);
      ChildWaitsFor(n, i, r.id, p);
    }
  }

  lemma {:induction false} IdsAreParts(n: Node, x: Id)
    ensures x in IdsOf(n) <==> exists m :: PartOf(n, m) && m.id == x
    decreases n, 1, 0
  {
    if x == n.id {
      assert PartOf(n, n);
    } else if x in IdsOf(n) {
      var i := SomeChildHas(n, 0, x);
      IdsAreParts(n.children[i], x);
      var m :| PartOf(n.children[i], m) && m.id == x;
      assert PartOf(n, m);
    }
    if m :| PartOf(n, m) && m.id == x {
      PartsHaveIds(n, m);
    }
  }

  lemma {:induction false} SomeChildHas(n: Node, k: nat, x: Id) returns (i: nat)
    requires k <= |n.children| && x in IdsFrom(n, k)
    ensures k <= i < |n.children| && x in IdsOf(n.children[i])
    decreases |n.children| - k
  {
    if x in IdsOf(n.children[k]) {
      i := k;
    } else {
      i := SomeChildHas(n, k + 1, x);
    }
  }

  /** Whatever the interleaving, exactly the nodes of the tree are registered, each with
      exactly the parents the tree gives it, and only a root that is neither fan-out nor
      flagged by the caller completes without calling unblock. */
  lemma FlowListsItsParents(root: Node, t: seq<Reg>, r: Reg, p: Id)
    requires NodeTrace(root, [], false, t) && Distinct(root)
    ensures (exists m :: PartOf(root, m) && m.id == p) <==> p in IdsIn(t)
    ensures r in t ==> (p in r.parents <==> WaitsFor(root, r.id, p))
    ensures r in t ==> (r.flagged <==> r.id != root.id || root.fanOut || root.flow)
  {
    TracesHaveTheirIds(root, [], false, t);
    IdsAreParts(root, p);
    if r in t {
      NodeLists(root, [], false, t, r, p);
    }
  }

  // ---- Which interleavings there are ----

  /** The registrations at the positions marked so. */
  function Chosen(t: seq<Reg>, marks: seq<bool>, mark: bool): seq<Reg>
    requires |marks| == |t|
  {
    if t == [] then []
    else (if marks[0] == mark then [t[0]] else []) + Chosen(t[1..], marks[1..], mark)
  }

  /** However a sequence is dealt out to two, it is an interleaving of what each got. */
  lemma {:induction false} DealtInterleaves(t: seq<Reg>, marks: seq<bool>)
    requires |marks| == |t|
    ensures Interleaves(Chosen(t, marks, true), Chosen(t, marks, false), t)
    decreases |t|
  {
    if t == [] {
    } else {
      DealtInterleaves(t[1..], marks[1..]);
      assert Chosen(t, marks, marks[0]) == [t[0]] + Chosen(t[1..], marks[1..], marks[0]);
      assert Chosen(t, marks, !marks[0]) == Chosen(t[1..], marks[1..], !marks[0]);
    }
  }

  lemma {:induction false} InterleavingIsDealt(a: seq<Reg>, b: seq<Reg>, t: seq<Reg>) returns (marks: seq<bool>)
    requires Interleaves(a, b, t)
    ensures Dealt(a, b, t, marks)
    decreases |t|
  {
    if t == [] {
      marks := [];
    } else if a != [] && a[0] == t[0] && Interleaves(a[1..], b, t[1..]) {
      var rest := InterleavingIsDealt(a[1..], b, t[1..]);
      marks := [true] + rest;
      assert marks[1..] == rest;
    } else {
      var rest := InterleavingIsDealt(a, b[1..], t[1..]);
      marks := [false] + rest;
      assert marks[1..] == rest;
    }
  }

  ghost predicate Dealt(a: seq<Reg>, b: seq<Reg>, t: seq<Reg>, marks: seq<bool>)
  {
    |marks| == |t| && Chosen(t, marks, true) == a && Chosen(t, marks, false) == b
  }

  /** The interleavings of two sequences are what can be dealt out into the two. */
  lemma InterleavesIff(a: seq<Reg>, b: seq<Reg>, t: seq<Reg>)
    ensures Interleaves(a, b, t) <==> exists marks :: Dealt(a, b, t, marks)
  {
    if Interleaves(a, b, t) {
      var marks := InterleavingIsDealt(a, b, t);
    }
    if marks :| Dealt(a, b, t, marks) {
      DealtInterleaves(t, marks);
    }
  }
}
