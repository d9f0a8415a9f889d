/** The bound on the shape of untrusted JSON, measured without recursion. */
module JsonShape {
  import opened Options

  datatype Json =
    | Scalar
    | Array(items: seq<Json>)
    | Object(keys: seq<string>, values: seq<Json>)
  {
    function Children(): seq<Json> {
      match this
      case Scalar => []
      case Array(items) => items
      case Object(_, values) => values
    }
  }

  function Count(j: Json): nat
    decreases j
  {
    match j
    case Scalar => 1
    case Array(items) => 1 + CountAll(items)
    case Object(_, values) => 1 + CountAll(values)
  }

  function CountAll(js: seq<Json>): nat
    decreases js
  {
    if js == [] then 0 else CountAll(js[..|js| - 1]) + Count(js[|js| - 1])
  }

  function Max(a: nat, b: nat): nat {
    if a < b then b else a
  }

  /** A scalar is one deep; so is an empty container. */
  function Depth(j: Json): nat
    decreases j
  {
    match j
    case Scalar => 1
    case Array(items) => 1 + DeepestOf(items)
    case Object(_, values) => 1 + DeepestOf(values)
  }

  function DeepestOf(js: seq<Json>): nat
    decreases js
  {
    if js == [] then 0 else Max(DeepestOf(js[..|js| - 1]), Depth(js[|js| - 1]))
  }

  // ---- what these numbers are ---------------------------------------------------------------

  /** The value at a place: an index for every container on the way. */
  function At(j: Json, place: seq<nat>): Option<Json> {
    if place == [] then Some(j)
    else if place[0] < |j.Children()| then At(j.Children()[place[0]], place[1..])
    else None
  }

  /** All places of a value. */
  function Places(j: Json): set<seq<nat>>
    decreases j
  {
    {[]} + match j
           case Scalar => {}
           case Array(items) => PlacesOfAll(items)
           case Object(_, values) => PlacesOfAll(values)
  }

  function PlacesOfAll(js: seq<Json>): set<seq<nat>>
    decreases js
  {
    if js == [] then {} else
      var n := |js| - 1;
      PlacesOfAll(js[..n]) + Below(n, Places(js[n]))
  }

  function Below(i: nat, places: set<seq<nat>>): set<seq<nat>> {
    set p | p in places :: [i] + p
  }

  lemma {:induction false} BelowIsAsMany(i: nat, places: set<seq<nat>>)
    ensures |Below(i, places)| == |places|
  {
    if places != {} {
      var p :| p in places;
      BelowIsAsMany(i, places - {p});
      assert Below(i, places) == Below(i, places - {p}) + {[i] + p};
      assert [i] + p !in Below(i, places - {p}) by {
        forall q | q in places - {p} ensures [i] + q != [i] + p {
          assert ([i] + q)[1..] == q && ([i] + p)[1..] == p;
        }
      }
    }
  }

  predicate HasLength(places: set<seq<nat>>, n: nat) {
    exists p :: p in places && |p| == n
  }

  /** The longest of these places. */
  predicate Longest(places: set<seq<nat>>, n: nat) {
    HasLength(places, n) && forall p :: p in places ==> |p| <= n
  }

  /** The count is the number of places, and the depth is one more than the longest of them. */
  lemma {:induction false} PlacesAreCounted(j: Json)
    ensures |Places(j)| == Count(j)
    ensures forall p :: p in Places(j) <==> At(j, p).Some?
    ensures Depth(j) > 0 && Longest(Places(j), Depth(j) - 1)
    decreases j
  {
    hide Longest, At, CountAll, DeepestOf, PlacesOfAll;
    match j
    case Scalar => NoPlaceBelow(j);
    case Array(items) =>
      AllPlacesAreCounted(items);
      RootIsAPlace(j, PlacesOfAll(items), DeepestOf(items));
    case Object(_, values) =>
      AllPlacesAreCounted(values);
      RootIsAPlace(j, PlacesOfAll(values), DeepestOf(values));
  }

  lemma NoPlaceBelow(j: Json)
    requires j.Scalar?
    ensures Places(j) == {[]} && (forall p :: p in Places(j) <==> At(j, p).Some?) && Longest(Places(j), 0)
  {
    var root: seq<nat> := [];
    assert root in Places(j) && |root| == 0;
  }

  predicate IsBelow(js: seq<Json>, p: seq<nat>) {
    p != [] && p[0] < |js| && At(js[p[0]], p[1..]).Some?
  }

  lemma RootIsAPlace(j: Json, below: set<seq<nat>>, deepest: nat)
    requires Places(j) == {[]} + below
    requires forall p :: p in below <==> IsBelow(j.Children(), p)
    requires if below == {} then deepest == 0 else Longest(below, deepest)
    ensures |Places(j)| == 1 + |below| && Longest(Places(j), deepest)
    ensures forall p :: p in Places(j) <==> At(j, p).Some?
  {
    hide Places;
    var root: seq<nat> := [];
    assert root !in below && root in Places(j);
    assert below == {} ==> |root| == deepest;
    if below != {} {
      var p :| p in below && |p| == deepest;
      assert p in Places(j);
    }
  }

  lemma {:induction false} AllPlacesAreCounted(js: seq<Json>)
    ensures |PlacesOfAll(js)| == CountAll(js)
    ensures forall p :: p in PlacesOfAll(js) <==> IsBelow(js, p)
    ensures if PlacesOfAll(js) == {} then DeepestOf(js) == 0 else Longest(PlacesOfAll(js), DeepestOf(js))
    decreases js
  {
    if js != [] {
      hide Places, Longest, IsBelow, At;
      var k := |js| - 1;
      AllPlacesAreCounted(js[..k]);
      PlacesAreCounted(js[k]);
      OneMoreBelow(js, PlacesOfAll(js[..k]), Places(js[k]));
      LongestOfMore(PlacesOfAll(js[..k]), Places(js[k]), k, DeepestOf(js[..k]), Depth(js[k]));
    } else {
      NothingBelow();
    }
  }

  lemma NothingBelow()
    ensures forall p :: !IsBelow([], p)
  {
  }

  lemma BelowHas(i: nat, places: set<seq<nat>>, p: seq<nat>)
    ensures p in Below(i, places) <==> p != [] && p[0] == i && p[1..] in places
  {
    if p != [] && p[0] == i && p[1..] in places {
      assert [i] + p[1..] == p;
    }
  }

  lemma OneMoreBelow(js: seq<Json>, before: set<seq<nat>>, last: set<seq<nat>>)
    requires js != [] && (forall p :: p in before <==> IsBelow(js[..|js| - 1], p))
    requires forall p :: p in last <==> At(js[|js| - 1], p).Some?
    ensures |before + Below(|js| - 1, last)| == |before| + |last|
    ensures forall p :: p in before + Below(|js| - 1, last) <==> IsBelow(js, p)
  {
    hide At, Below;
    var k := |js| - 1;
    BelowIsAsMany(k, last);
    forall p ensures p in before + Below(k, last) <==> IsBelow(js, p) {
      BelowHas(k, last, p);
    }
    assert before !! Below(k, last) by {
      forall p | p in Below(k, last) ensures p !in before {
        BelowHas(k, last, p);
      }
    }
  }

  lemma LongestOfMore(before: set<seq<nat>>, last: set<seq<nat>>, k: nat, deepest: nat, depth: nat)
    requires if before == {} then deepest == 0 else Longest(before, deepest)
    requires depth > 0 && Longest(last, depth - 1)
    ensures before + Below(k, last) != {} && Longest(before + Below(k, last), Max(deepest, depth))
  {
    hide Below;
    var all := before + Below(k, last);
    var p :| p in last && |p| == depth - 1;
    BelowHas(k, last, [k] + p);
    assert [k] + p in all && |[k] + p| == depth;
    if deepest > depth {
      var q :| q in before && |q| == deepest;
      assert q in all;
    }
    forall q | q in all ensures |q| <= Max(deepest, depth) {
      BelowHas(k, last, q);
    }
  }

  // ---- the walk ----------------------------------------------------------------------------

  datatype Entry = Entry(node: Json, depth: nat)

  /** Nodes still to be visited from the stack, and how deep they reach. */
  function Pending(stack: seq<Entry>): nat {
    if stack == [] then 0 else Pending(stack[..|stack| - 1]) + Count(stack[|stack| - 1].node)
  }

  function Reach(stack: seq<Entry>): nat {
    if stack == [] then 0 else
      var top := stack[|stack| - 1];
      Max(Reach(stack[..|stack| - 1]), top.depth + Depth(top.node))
  }

  lemma PushOne(stack: seq<Entry>, e: Entry)
    ensures Pending(stack + [e]) == Pending(stack) + Count(e.node)
    ensures Reach(stack + [e]) == Max(Reach(stack), e.depth + Depth(e.node))
  {
    assert (stack + [e])[..|stack|] == stack;
  }

  lemma ChildrenOf(j: Json)
    ensures Count(j) == 1 + CountAll(j.Children())
    ensures Depth(j) == 1 + DeepestOf(j.Children())
  {
  }

  lemma OneMoreChild(js: seq<Json>, i: nat)
    requires i < |js|
    ensures CountAll(js[..i + 1]) == CountAll(js[..i]) + Count(js[i])
    ensures DeepestOf(js[..i + 1]) == Max(DeepestOf(js[..i]), Depth(js[i]))
  {
    assert js[..i + 1][..i] == js[..i];
  }

  method PushChildren(stack: seq<Entry>, children: seq<Json>, depth: nat) returns (pushed: seq<Entry>)
    ensures Pending(pushed) == Pending(stack) + CountAll(children)
    ensures Reach(pushed) == if children == [] then Reach(stack) else Max(Reach(stack), depth + DeepestOf(children))
  {
    pushed := stack;
    assert children[..0] == [];
    for i := 0 to |children|
      invariant Pending(pushed) == Pending(stack) + CountAll(children[..i])
      invariant Reach(pushed) == if i == 0 then Reach(stack) else Max(Reach(stack), depth + DeepestOf(children[..i]))
    {
      OneMoreChild(children, i);
      PushOne(pushed, Entry(children[i], depth));
      pushed := pushed + [Entry(children[i], depth)];
    }
    assert children[..|children|] == children;
  }

  /**
   * True exactly when the value has too many nodes or is too deep, found out by
   * visiting at most one node more than allowed.
   */
  method JsonShapeExceeds(value: Json, maxNodes: nat, maxDepth: nat) returns (exceeds: bool, pops: nat)
    ensures exceeds <==> Count(value) > maxNodes || Depth(value) > maxDepth
    ensures pops <= maxNodes + 1 && pops <= Count(value)
    ensures !exceeds ==> pops == Count(value)
  {
    hide Count, Depth;
    var stack := [Entry(value, 1)];
    PushOne([], Entry(value, 1));
    assert [] + [Entry(value, 1)] == stack;
    var nodes: nat := 0;
    while stack != []
      invariant nodes <= maxNodes && nodes + Pending(stack) == Count(value)
      invariant Depth(value) > maxDepth <==> Reach(stack) > maxDepth + 1
      decreases Pending(stack)
    {
      var entry := stack[|stack| - 1];
      stack := stack[..|stack| - 1];
      nodes := nodes + 1;
      ChildrenOf(entry.node);
      if nodes > maxNodes || entry.depth > maxDepth {
        return true, nodes;
      }
      stack := PushChildren(stack, entry.node.Children(), entry.depth + 1);
    }
    exceeds, pops := false, nodes;
  }
}
