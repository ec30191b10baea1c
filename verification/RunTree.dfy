/**
 Validation of a run tree received from a gateway: one recursion with a shared node counter,
 then a walk over the handle namespaces.
 */
module RunTree {
  import opened Basics

  newtype u8 = n: int | 0 <= n < 256
  newtype u16 = n: int | 0 <= n < 65536
  newtype u32 = n: int | 0 <= n < 0x1_0000_0000

  const MAX_DEPTH: u8 := 4
  const MAX_NODES: u16 := 100
  const MAX_CONDITIONS: nat := 16
  const MAX_ATTENTION: u32 := 10_000
  const MAX_LABEL_CHARS: nat := 120

  datatype Condition =
    | Accepted | WorkspaceReady | RuntimeReady | SessionReady | EventStreamReady | Running | WaitingForInput
    | CancellationRequested | TerminalObserved | VerificationComplete | ArtifactsReady | CleanupComplete
    | Degraded | Retrying | Blocked

  /** Only whether a run has finished, and whether it has an outcome, matters here. */
  datatype Node = Node(
    handle: string, caption: string, finished: bool, hasOutcome: bool, conditions: seq<Condition>,
    attention: u32, childCount: u32, activeChildCount: u32, children: seq<Node>)

  // ---------------------------------------------------------------------
  // One node
  // ---------------------------------------------------------------------

  predicate ValidHandle(s: string) {
    32 <= |s| <= 128 && forall c | c in s :: IsHandleChar(c)
  }

  /** Marks that change the direction of text. */
  predicate IsBidi(c: char) {
    var n := c as int;
    n == 0x061c || n == 0x200e || n == 0x200f || 0x202a <= n <= 0x202e || 0x2066 <= n <= 0x2069
  }

  predicate SafeText(s: string) {
    && IsTrimmed(s) && 1 <= |s| <= MAX_LABEL_CHARS && Utf8Len(s) <= MAX_LABEL_CHARS * 4
    && forall c | c in s :: !IsControl(c) && !IsBidi(c)
  }

  predicate ValidConditions(s: seq<Condition>) {
    |s| <= MAX_CONDITIONS && Distinct(s)
  }

  /** What is asked of a node apart from its place in the tree. */
  predicate LocallyValid(n: Node) {
    && ValidHandle(n.handle) && SafeText(n.caption)
    && n.activeChildCount <= n.childCount && |n.children| <= n.childCount as int && n.attention <= MAX_ATTENTION
    && ValidConditions(n.conditions) && n.hasOutcome == n.finished
  }

  // ---------------------------------------------------------------------
  // The tree
  // ---------------------------------------------------------------------

  /** Every node of the tree, parents first. */
  function Preorder(n: Node): (s: seq<Node>)
    ensures s != [] && n in s
  {
    [n] + PreorderAll(n.children)
  }

  function PreorderAll(ns: seq<Node>): seq<Node> {
    if ns == [] then [] else Preorder(ns[0]) + PreorderAll(ns[1..])
  }

  /** The longest way down from a node. */
  function Height(n: Node): nat {
    HeightAll(n.children)
  }

  /** One more than the height of the highest tree, or zero. */
  function HeightAll(ns: seq<Node>): nat {
    if ns == [] then 0 else Max(1 + Height(ns[0]), HeightAll(ns[1..]))
  }

  predicate AllValid(ns: seq<Node>) {
    forall n | n in ns :: LocallyValid(n)
  }

  /** Room is left for the tree below the given depth and after the given count of nodes. */
  predicate Fits(n: Node, depth: int, count: int) {
    depth + Height(n) <= MAX_DEPTH as int && count + |Preorder(n)| <= MAX_NODES as int && AllValid(Preorder(n))
  }

  predicate FitsAll(ns: seq<Node>, depth: int, count: int) {
    && depth + HeightAll(ns) <= MAX_DEPTH as int && count + |PreorderAll(ns)| <= MAX_NODES as int
    && AllValid(PreorderAll(ns))
  }

  lemma FitsNode(n: Node, depth: nat, count: nat)
    ensures Fits(n, depth, count) <==>
              depth <= MAX_DEPTH as int && count + 1 <= MAX_NODES as int && LocallyValid(n)
              && FitsAll(n.children, depth, count + 1)
  {
    var all := PreorderAll(n.children);
    assert forall m | m in all :: m in Preorder(n);
  }

  lemma FitsFirst(ns: seq<Node>, depth: nat, count: nat)
    requires ns != [] && depth <= MAX_DEPTH as int
    ensures FitsAll(ns, depth, count) <==>
              Fits(ns[0], depth + 1, count) && FitsAll(ns[1..], depth, count + |Preorder(ns[0])|)
  {
    var first, rest := Preorder(ns[0]), PreorderAll(ns[1..]);
    assert PreorderAll(ns) == first + rest;
    assert AllValid(first + rest) <==> AllValid(first) && AllValid(rest) by {
      assert forall m | m in first :: m in first + rest;
      assert forall m | m in rest :: m in first + rest;
    }
  }

  // ---------------------------------------------------------------------
  // Validation
  // ---------------------------------------------------------------------

  /** No condition twice; the loop keeps the ones it has seen. */
  method CheckConditions(conditions: seq<Condition>) returns (ok: bool)
    ensures ok <==> ValidConditions(conditions)
  {
    if |conditions| > MAX_CONDITIONS { return false; }
    var seen := [];
    for i := 0 to |conditions|
      invariant seen == conditions[..i] && Distinct(seen)
    {
      if conditions[i] in seen { return false; }
      seen := seen + [conditions[i]];
    }
    assert conditions[..|conditions|] == conditions;
    return true;
  }

  const ALL_CONDITIONS: set<Condition> :=
    {Accepted, WorkspaceReady, RuntimeReady, SessionReady, EventStreamReady, Running, WaitingForInput,
     CancellationRequested, TerminalObserved, VerificationComplete, ArtifactsReady, CleanupComplete,
     Degraded, Retrying, Blocked}

  lemma EveryCondition(c: Condition)
    ensures c in ALL_CONDITIONS
  {
  }

  lemma {:induction false} DistinctCount(s: seq<Condition>, all: set<Condition>)
    requires Distinct(s) && forall c | c in s :: c in all
    ensures |s| <= |all|
  {
    if s != [] {
      var last := s[|s| - 1];
      var rest := s[..|s| - 1];
      assert last in s;
      forall c | c in rest ensures c in all - {last} {
        var i :| 0 <= i < |rest| && rest[i] == c;
        assert s[i] == c && c in s;
      }
      DistinctCount(rest, all - {last});
    }
  }

  /** There are fifteen conditions, so the limit of sixteen never decides. */
  lemma LimitNeverDecides(s: seq<Condition>)
    ensures ValidConditions(s) <==> Distinct(s)
  {
    if Distinct(s) {
      forall c | c in s ensures c in ALL_CONDITIONS {
        EveryCondition(c);
      }
      DistinctCount(s, ALL_CONDITIONS);
      assert |ALL_CONDITIONS| <= 15;
    }
  }

  /** Likewise the byte limit of a label: 120 characters never take more than 480 bytes. */
  lemma ByteLimitNeverDecides(s: string)
    requires |s| <= MAX_LABEL_CHARS
    ensures Utf8Len(s) <= MAX_LABEL_CHARS * 4
  {
    Utf8LenBounds(s);
  }

  /**
   The recursion, with the counter it shares: it accepts exactly what fits, and then the counter
   has moved by the number of nodes. It never overflows, and the depth never saturates.
   */
  method ValidateNode(n: Node, depth: u8, nodes: u16) returns (ok: bool, after: u16)
    requires depth <= MAX_DEPTH + 1 && nodes <= MAX_NODES
    ensures ok <==> Fits(n, depth as int, nodes as int)
    ensures ok ==> after as int == nodes as int + |Preorder(n)|
    ensures nodes <= after <= MAX_NODES + 1
    decreases n
  {
    after := nodes;
    FitsNode(n, depth as int, nodes as int);
    if depth > MAX_DEPTH { return false, after; }
    after := after + 1;
    if after > MAX_NODES { return false, after; }
    var conditionsOk := CheckConditions(n.conditions);
    if !ValidHandle(n.handle) || !SafeText(n.caption) { return false, after; }
    if n.activeChildCount > n.childCount || (n.childCount as int) < |n.children|
       || n.attention > MAX_ATTENTION || !conditionsOk {
      return false, after;
    }
    if n.finished != n.hasOutcome { return false, after; }
    assert n.children[0..] == n.children;
    for i := 0 to |n.children|
      invariant nodes <= after <= MAX_NODES
      invariant after as int + |PreorderAll(n.children[i..])| == nodes as int + |Preorder(n)|
      invariant FitsAll(n.children, depth as int, nodes as int + 1) <==>
                  FitsAll(n.children[i..], depth as int, after as int)
    {
      var rest := n.children[i..];
      assert rest[0] == n.children[i] && rest[1..] == n.children[i + 1..];
      FitsFirst(rest, depth as int, after as int);
      var childOk;
      childOk, after := ValidateNode(n.children[i], depth + 1, after);
      if !childOk { return false, after; }
    }
    return true, after;
  }

  /** `RemoteRunTreeV5::validate` */
  method ValidateTree(root: Node) returns (ok: bool)
    ensures ok <==> |Preorder(root)| <= 100 && Height(root) <= 4 && forall n | n in Preorder(root) :: LocallyValid(n)
  {
    var nodes;
    ok, nodes := ValidateNode(root, 0, 0);
  }

  // ---------------------------------------------------------------------
  // Namespaces
  // ---------------------------------------------------------------------

  predicate CheckHandle(s: string, namespace: string) {
    namespace + "_" <= s && ValidHandle(s)
  }

  /** `check_tree_namespaces` */
  predicate CheckNamespaces(n: Node) {
    CheckHandle(n.handle, "run") && CheckNamespacesAll(n.children)
  }

  predicate CheckNamespacesAll(ns: seq<Node>) {
    ns == [] || (CheckNamespaces(ns[0]) && CheckNamespacesAll(ns[1..]))
  }

  lemma {:induction false} NamespacesMeanEveryNode(n: Node)
    ensures CheckNamespaces(n) <==> forall m | m in Preorder(n) :: CheckHandle(m.handle, "run")
    decreases n
  {
    NamespacesMeanEveryNodeOf(n.children);
  }

  lemma {:induction false} NamespacesMeanEveryNodeOf(ns: seq<Node>)
    ensures CheckNamespacesAll(ns) <==> forall m | m in PreorderAll(ns) :: CheckHandle(m.handle, "run")
    decreases ns
  {
    if ns != [] {
      NamespacesMeanEveryNode(ns[0]);
      NamespacesMeanEveryNodeOf(ns[1..]);
    }
  }

  /** What every node of an accepted tree is like, field by field. */
  predicate AcceptableNode(n: Node) {
    && "run_" <= n.handle && 32 <= |n.handle| <= 128 && (forall c | c in n.handle :: IsHandleChar(c))
    && 1 <= |n.caption| <= 120 && IsTrimmed(n.caption) && (forall c | c in n.caption :: !IsControl(c) && !IsBidi(c))
    && |n.children| <= n.childCount as int && n.activeChildCount <= n.childCount && n.attention <= 10_000
    && Distinct(n.conditions) && (n.finished <==> n.hasOutcome)
  }

  lemma AcceptableMeans(n: Node)
    ensures AcceptableNode(n) <==> LocallyValid(n) && "run_" <= n.handle
  {
    LimitNeverDecides(n.conditions);
    if |n.caption| <= 120 {
      ByteLimitNeverDecides(n.caption);
    }
  }

  /**
   The tree branch of `validate_response` accepts exactly the trees of at most 100 nodes and
   depth at most 4 in which every node is locally valid under a `run_` handle.
   */
  method ValidateTreeResponse(root: Node) returns (ok: bool)
    ensures ok <==>
              && |Preorder(root)| <= 100 && Height(root) <= 4
              && forall n | n in Preorder(root) :: AcceptableNode(n)
  {
    ok := ValidateTree(root);
    NamespacesMeanEveryNode(root);
    assert "run" + "_" == "run_";
    forall n | n in Preorder(root) ensures AcceptableNode(n) <==> LocallyValid(n) && "run_" <= n.handle {
      AcceptableMeans(n);
    }
    ok := ok && CheckNamespaces(root);
  }
}
