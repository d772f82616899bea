/**
 The structure check of flowProducer.js. A flow is a graph of JavaScript objects,
 which may be shared and may form cycles; the check walks it with a set of the
 keys on the current path, where a key is the text queue:name.
 */
module FlowCheck {

  import opened Redis

  type Ref = nat

  /** A field that is missing reads as "". The check looks at the names and the
      children; whether the node is a fan-out, has a flow flag of its own, and lists
      parents of its own matters when it is registered. */
  datatype NodeData = NodeData(name: string, queueName: string, queue: string, children: seq<Ref>,
                               fanOut: bool, flow: bool, own: seq<Id>)

  /** Anything that is not an object has no entry. */
  type Graph = map<Ref, NodeData>

  datatype Verdict = Accepted | NotAnObject | NoName | NoQueue | Circular(key: string, path: seq<string>)

  function QueueOf(node: NodeData): string
  {
    if node.queueName != "" then node.queueName else node.queue
  }

  function KeyOf(node: NodeData): string
  {
    QueueOf(node) + ":" + node.name
  }

  function Keys(g: Graph): set<string>
  {
    set r | r in g :: KeyOf(g[r])
  }

  function OnPath(path: seq<string>): set<string>
  {
    set k | k in path
  }

  // ---- The check as a function ----

  function CheckNode(g: Graph, r: Ref, path: seq<string>): Verdict
    decreases Keys(g) - OnPath(path), 1, 0
  {
    if r !in g then NotAnObject
    else if g[r].name == "" then NoName
    else if QueueOf(g[r]) == "" then NoQueue
    else if KeyOf(g[r]) in path then Circular(KeyOf(g[r]), path)
    else
      ShorterPath(g, r, path);
      CheckChildren(g, g[r].children, path + [KeyOf(g[r])])
  }

  function CheckChildren(g: Graph, rs: seq<Ref>, path: seq<string>): Verdict
    decreases Keys(g) - OnPath(path), 2, |rs|
  {
    if rs == [] then Accepted
    else if CheckNode(g, rs[0], path) != Accepted then CheckNode(g, rs[0], path)
    else CheckChildren(g, rs[1..], path)
  }

  /** The measure that makes the check end on every graph: keys not yet on the path. */
  lemma ShorterPath(g: Graph, r: Ref, path: seq<string>)
    requires r in g && KeyOf(g[r]) !in path
    ensures Keys(g) - OnPath(path + [KeyOf(g[r])]) < Keys(g) - OnPath(path)
  {
    var key := KeyOf(g[r]);
    assert key in Keys(g) - OnPath(path);
    assert OnPath(path + [key]) == OnPath(path) + {key};
  }

  // ---- The check as the code runs it ----

  class StructureCheck {
    const g: Graph
    var visited: set<string>

    constructor (g: Graph)
      ensures this.g == g && visited == {}
    {
      this.g, visited := g, {};
    }

    method Check(r: Ref, path: seq<string>) returns (verdict: Verdict)
      requires visited == OnPath(path)
      modifies this
      ensures verdict == CheckNode(g, r, path)
      ensures verdict == Accepted ==> visited == old(visited)
      decreases Keys(g) - OnPath(path)
    {
      if r !in g {
        return NotAnObject;
      }
      if g[r].name == "" {
        return NoName;
      }
      if QueueOf(g[r]) == "" {
        return NoQueue;
      }
      var key := KeyOf(g[r]);
      if key in visited {
        return Circular(key, path);
      }
      ShorterPath(g, r, path);
      visited := visited + {key};
      assert visited == OnPath(path + [key]);
      var children := g[r].children;
      var i := 0;
      while i < |children|
        invariant 0 <= i <= |children|
        invariant visited == OnPath(path + [key])
        invariant CheckChildren(g, children, path + [key]) == CheckChildren(g, children[i..], path + [key])
      {
        verdict := Check(children[i], path + [key]);
        if verdict != Accepted {
          return;
        }
        i := i + 1;
      }
      visited := visited - {key};
      return Accepted;
    }
  }

  // ---- What acceptance means ----

  ghost predicate IsWalk(g: Graph, walk: seq<Ref>)
  {
    && walk != []
    && (|walk| > 1 ==> walk[0] in g && walk[1] in g[walk[0]].children && IsWalk(g, walk[1..]))
  }

  predicate WellFormed(g: Graph, r: Ref)
  {
    r in g && g[r].name != "" && QueueOf(g[r]) != ""
  }

  function KeyAt(g: Graph, r: Ref): string
  {
    if r in g then KeyOf(g[r]) else ""
  }

  /** Every node on the walk is well-formed, and no two have the same key, nor does
      any have a key of the path that led here. */
  ghost predicate GoodWalk(g: Graph, path: seq<string>, walk: seq<Ref>)
  {
    && (forall i :: 0 <= i < |walk| ==> WellFormed(g, walk[i]) && KeyAt(g, walk[i]) !in path)
    && (forall i, j :: 0 <= i < j < |walk| ==> KeyAt(g, walk[i]) != KeyAt(g, walk[j]))
  }

  lemma {:induction false} AcceptedChildren(g: Graph, rs: seq<Ref>, path: seq<string>, r: Ref)
    requires CheckChildren(g, rs, path) == Accepted && r in rs
    ensures CheckNode(g, r, path) == Accepted
    decreases |rs|
  {
    if r == rs[0] {
    } else {
      AcceptedChildren(g, rs[1..], path, r);
    }
  }

  lemma {:induction false} AcceptedWalks(g: Graph, path: seq<string>, walk: seq<Ref>)
    requires IsWalk(g, walk) && CheckNode(g, walk[0], path) == Accepted
    ensures GoodWalk(g, path, walk)
    decreases |walk|
  {
    if |walk| <= 1 {
    } else {
      var rest := walk[1..];
      var key := KeyOf(g[walk[0]]);
      AcceptedChildren(g, g[walk[0]].children, path + [key], walk[1]);
      AcceptedWalks(g, path + [key], rest);
      GoodCons(g, path, walk, key);
    }
  }

  lemma GoodCons(g: Graph, path: seq<string>, walk: seq<Ref>, key: string)
    requires |walk| > 1 && WellFormed(g, walk[0]) && key == KeyAt(g, walk[0]) && key !in path
    ensures GoodWalk(g, path, walk) <==> GoodWalk(g, path + [key], walk[1..])
  {
    var rest := walk[1..];
    assert walk == [walk[0]] + rest;
    if GoodWalk(g, path + [key], rest) {
      forall i | 0 <= i < |walk|
        ensures WellFormed(g, walk[i]) && KeyAt(g, walk[i]) !in path && (i > 0 ==> KeyAt(g, walk[i]) != key)
      {
        if i > 0 {
          assert rest[i - 1] == walk[i];
        }
      }
      forall i, j | 0 <= i < j < |walk|
        ensures KeyAt(g, walk[i]) != KeyAt(g, walk[j])
      {
        assert rest[j - 1] == walk[j];
        if i > 0 {
          assert rest[i - 1] == walk[i];
        }
      }
    }
    if GoodWalk(g, path, walk) {
      forall i | 0 <= i < |rest|
        ensures WellFormed(g, rest[i]) && KeyAt(g, rest[i]) !in path + [key]
      {
        assert rest[i] == walk[i + 1];
      }
    }
  }

  function KeysAlong(g: Graph, walk: seq<Ref>): seq<string>
  {
    seq(|walk|, i requires 0 <= i < |walk| => KeyAt(g, walk[i]))
  }

  lemma {:induction false} RejectedChild(g: Graph, rs: seq<Ref>, path: seq<string>) returns (r: Ref)
    requires CheckChildren(g, rs, path) != Accepted
    ensures r in rs && CheckNode(g, r, path) == CheckChildren(g, rs, path)
    decreases |rs|
  {
    if CheckNode(g, rs[0], path) != Accepted {
      r := rs[0];
    } else {
      r := RejectedChild(g, rs[1..], path);
    }
  }

  /** A rejection comes with a walk that deserves it, and a circular one names the
      keys along that walk, the last of which occurs before. */
  ghost predicate Deserved(g: Graph, path: seq<string>, walk: seq<Ref>, verdict: Verdict)
    requires walk != []
  {
    var last := walk[|walk| - 1];
    match verdict
    case Accepted => false
    case NotAnObject => last !in g
    case NoName => last in g && g[last].name == ""
    case NoQueue => last in g && g[last].name != "" && QueueOf(g[last]) == ""
    case Circular(key, keys) => path + KeysAlong(g, walk) == keys + [key] && key in keys && WellFormed(g, last)
  }

  lemma LongerWalk(g: Graph, r: Ref, path: seq<string>, rest: seq<Ref>, verdict: Verdict)
    requires WellFormed(g, r) && KeyOf(g[r]) !in path
    requires IsWalk(g, rest) && rest[0] in g[r].children
    requires Deserved(g, path + [KeyOf(g[r])], rest, verdict) && !GoodWalk(g, path + [KeyOf(g[r])], rest)
    ensures var walk := [r] + rest;
            IsWalk(g, walk) && Deserved(g, path, walk, verdict) && !GoodWalk(g, path, walk)
  {
    var walk := [r] + rest;
    assert walk[1..] == rest;
    GoodCons(g, path, walk, KeyOf(g[r]));
    LongerKeys(g, r, path, rest);
  }

  lemma LongerKeys(g: Graph, r: Ref, path: seq<string>, rest: seq<Ref>)
    requires r in g
    ensures path + KeysAlong(g, [r] + rest) == path + [KeyOf(g[r])] + KeysAlong(g, rest)
  {
    assert KeysAlong(g, [r] + rest) == [KeyOf(g[r])] + KeysAlong(g, rest);
  }

  lemma {:induction false} RejectedWalk(g: Graph, r: Ref, path: seq<string>) returns (walk: seq<Ref>)
    requires CheckNode(g, r, path) != Accepted
    ensures IsWalk(g, walk) && walk[0] == r
    ensures Deserved(g, path, walk, CheckNode(g, r, path)) && !GoodWalk(g, path, walk)
    decreases Keys(g) - OnPath(path)
  {
    walk := [r];
    if WellFormed(g, r) && KeyOf(g[r]) !in path {
      var key := KeyOf(g[r]);
      ShorterPath(g, r, path);
      var child := RejectedChild(g, g[r].children, path + [key]);
      var rest := RejectedWalk(g, child, path + [key]);
      walk := [r] + rest;
      LongerWalk(g, r, path, rest, CheckNode(g, r, path));
    } else if WellFormed(g, r) {
      assert KeysAlong(g, walk) == [KeyOf(g[r])];
      assert KeyAt(g, walk[0]) in path;
    } else {
      assert !WellFormed(g, walk[0]);
    }
  }

  /** The check accepts exactly the flows all of whose reachable nodes are
      well-formed and in which no walk from the root meets a key twice. */
  lemma AcceptedIff(g: Graph, root: Ref)
    ensures CheckNode(g, root, []) == Accepted
       <==> forall walk :: IsWalk(g, walk) && walk[0] == root ==> GoodWalk(g, [], walk)
  {
    if CheckNode(g, root, []) == Accepted {
      forall walk | IsWalk(g, walk) && walk[0] == root
        ensures GoodWalk(g, [], walk)
      {
        AcceptedWalks(g, [], walk);
      }
    } else {
      var walk := RejectedWalk(g, root, []);
    }
  }

  lemma {:induction false} LongWalkRepeats(g: Graph, walk: seq<Ref>)
    requires forall i :: 0 <= i < |walk| ==> walk[i] in g
    requires forall i, j :: 0 <= i < j < |walk| ==> KeyAt(g, walk[i]) != KeyAt(g, walk[j])
    ensures |walk| <= |Keys(g)|
  {
    var keys := KeysAlong(g, walk);
    DistinctFit(keys, Keys(g));
  }

  lemma {:induction false} DistinctFit(keys: seq<string>, all: set<string>)
    requires forall i, j :: 0 <= i < j < |keys| ==> keys[i] != keys[j]
    requires forall k :: k in keys ==> k in all
    ensures |keys| <= |all|
    decreases |keys|
  {
    if keys == [] {
    } else {
      var last := keys[|keys| - 1];
      var rest := keys[..|keys| - 1];
      DistinctFit(rest, all - {last});
    }
  }

  /** So an accepted flow is free of cycles: its walks are no longer than its keys are many. */
  lemma AcceptedIsAcyclic(g: Graph, root: Ref, walk: seq<Ref>)
    requires CheckNode(g, root, []) == Accepted && IsWalk(g, walk) && walk[0] == root
    ensures |walk| <= |Keys(g)|
  {
    AcceptedWalks(g, [], walk);
    LongWalkRepeats(g, walk);
  }
}
