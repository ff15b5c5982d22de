/** Choosing a node for a task (internal/scheduler/scheduler.go, SelectNode). */
module NodeSelection {
  import opened Tasks
  import opened Nodes
  import opened NodeManagement

  /** Conversion to an integer drops the fraction, towards zero. */
  function Truncate(x: real): int {
    if x >= 0.0 then x.Floor else -((-x).Floor)
  }

  function AvailableCpu(node: Node): int {
    node.totalCpu - Truncate(node.totalCpu as real * node.usage.cpuPct / 100.0)
  }

  function AvailableMem(node: Node): int {
    node.totalMemoryMb - node.usage.memoryUsedMb
  }

  predicate Fits(task: Task, node: Node) {
    && (task.cpuLimit == 0 || task.cpuLimit <= AvailableCpu(node))
    && (task.memoryLimit == 0 || task.memoryLimit <= AvailableMem(node))
  }

  predicate Eligible(task: Task, node: Node) {
    Matches(node, task.job.nodeSelector) && Fits(task, node)
  }

  /** `used` is the used share of the node's CPUs, rounded down. */
  ghost predicate UsedCpus(node: Node, used: int) {
    used as real <= node.totalCpu as real * node.usage.cpuPct / 100.0 < used as real + 1.0
  }

  /** Totals and usage are not negative, as agents report them. */
  predicate Reasonable(node: Node) {
    node.totalCpu >= 0 && node.usage.cpuPct >= 0.0
  }

  /** The task's limits fit beside `used` CPUs and the memory in use; a limit of zero asks for
      nothing. */
  predicate HasRoom(task: Task, node: Node, used: int) {
    && (task.cpuLimit == 0 || task.cpuLimit + used <= node.totalCpu)
    && (task.memoryLimit == 0 || task.memoryLimit + node.usage.memoryUsedMb <= node.totalMemoryMb)
  }

  /** What makes a node eligible: its labels, and room beside what is in use. */
  lemma EligibleIffRoom(task: Task, node: Node, used: int)
    requires Reasonable(node) && UsedCpus(node, used)
    ensures Eligible(task, node) <==> Matches(node, task.job.nodeSelector) && HasRoom(task, node, used)
  {
    assert node.totalCpu as real * node.usage.cpuPct / 100.0 >= 0.0;
    hide Matches;
  }

  lemma EligibleHasRoom(task: Task, node: Node)
    requires Reasonable(node) && Eligible(task, node)
    ensures exists used :: UsedCpus(node, used) && HasRoom(task, node, used)
  {
    var used := (node.totalCpu as real * node.usage.cpuPct / 100.0).Floor;
    EligibleIffRoom(task, node, used);
    assert UsedCpus(node, used) && HasRoom(task, node, used);
  }

  /** No node that has room for the task matches it. */
  ghost predicate NoRoom(online: map<NodeId, Node>, task: Task) {
    forall id, used ::
      id in online && Reasonable(online[id]) && UsedCpus(online[id], used) && HasRoom(task, online[id], used) ==>
        !Matches(online[id], task.job.nodeSelector)
  }

  lemma NoneEligibleMeansNoRoom(online: map<NodeId, Node>, task: Task)
    ensures (forall id :: id in online ==> !Eligible(task, online[id])) ==> NoRoom(online, task)
  {
    hide Eligible, UsedCpus, HasRoom, Reasonable, Matches;
    if id :| id in online && Eligible(task, online[id]) { return; }
    forall id, used |
      id in online && Reasonable(online[id]) && UsedCpus(online[id], used) && HasRoom(task, online[id], used)
      ensures !Matches(online[id], task.job.nodeSelector)
    {
      EligibleIffRoom(task, online[id], used);
    }
  }

  /** Some cached node is eligible for the task, named `id`, and no eligible one is used less. */
  ghost predicate IsBest(online: map<NodeId, Node>, task: Task, id: NodeId) {
    && id in online && Eligible(task, online[id])
    && forall other :: other in online && Eligible(task, online[other]) ==>
         online[id].usage.cpuPct <= online[other].usage.cpuPct
  }

  /** The node handed to dispatch: a best one, or none when no cached node is eligible. */
  ghost predicate IsChoice(online: map<NodeId, Node>, task: Task, node: Option<NodeId>) {
    match node
    case None => forall id :: id in online ==> !Eligible(task, online[id])
    case Some(n) => exists id :: IsBest(online, task, id) && online[id].nodeId == n
  }

  lemma SameChoice(online: map<NodeId, Node>, a: Task, b: Task)
    requires SameSubmission(a, b)
    ensures forall node :: IsChoice(online, a, node) <==> IsChoice(online, b, node)
  {
    SameEligible(online, a, b);
    hide Eligible, IsBest;
  }

  lemma SameEligible(online: map<NodeId, Node>, a: Task, b: Task)
    requires SameSubmission(a, b)
    ensures forall n :: Eligible(a, n) == Eligible(b, n)
    ensures forall id :: IsBest(online, a, id) == IsBest(online, b, id)
  {
  }

  ghost predicate Ascending(s: seq<Node>) {
    forall i, j :: 0 <= i < j < |s| ==> s[i].usage.cpuPct <= s[j].usage.cpuPct
  }

  lemma InsertAscending(s: seq<Node>, at: nat, x: Node)
    requires at <= |s| && Ascending(s)
    requires forall i :: 0 <= i < at ==> s[i].usage.cpuPct <= x.usage.cpuPct
    requires at < |s| ==> x.usage.cpuPct < s[at].usage.cpuPct
    ensures Ascending(s[..at] + [x] + s[at..])
  {
  }

  /** Brings the nodes into ascending order of CPU usage. */
  method SortByUsage(nodes: seq<Node>) returns (sorted: seq<Node>)
    ensures multiset(sorted) == multiset(nodes)
    ensures Ascending(sorted)
  {
    sorted := [];
    for k := 0 to |nodes|
      invariant multiset(sorted) == multiset(nodes[..k])
      invariant Ascending(sorted)
    {
      var at := 0;
      while at < |sorted| && sorted[at].usage.cpuPct <= nodes[k].usage.cpuPct
        invariant at <= |sorted|
        invariant forall i :: 0 <= i < at ==> sorted[i].usage.cpuPct <= nodes[k].usage.cpuPct
      {
        at := at + 1;
      }
      InsertAscending(sorted, at, nodes[k]);
      InsertKeepsBag(sorted, at, nodes, k);
      sorted := sorted[..at] + [nodes[k]] + sorted[at..];
    }
    assert nodes[..|nodes|] == nodes;
  }

  lemma InsertKeepsBag<T>(sorted: seq<T>, at: nat, s: seq<T>, k: nat)
    requires at <= |sorted| && k < |s| && multiset(sorted) == multiset(s[..k])
    ensures multiset(sorted[..at] + [s[k]] + sorted[at..]) == multiset(s[..k + 1])
  {
    InsertBag(sorted, at, s[k]);
    PrefixBag(s, k);
  }

  lemma InsertBag<T>(s: seq<T>, at: nat, x: T)
    requires at <= |s|
    ensures multiset(s[..at] + [x] + s[at..]) == multiset(s) + multiset{x}
  {
    assert s == s[..at] + s[at..];
  }

  lemma PrefixBag<T>(s: seq<T>, k: nat)
    requires k < |s|
    ensures multiset(s[..k + 1]) == multiset(s[..k]) + multiset{s[k]}
  {
    assert s[..k + 1] == s[..k] + [s[k]];
  }

  lemma BagMembers<T>(a: seq<T>, b: seq<T>)
    requires multiset(a) == multiset(b)
    ensures forall x :: x in a <==> x in b
  {
    forall x ensures x in a <==> x in b {
      assert x in a <==> x in multiset(a);
      assert x in b <==> x in multiset(b);
    }
  }

  /** The resource layer of the selection. */
  method FilterByRoom(candidates: seq<Node>, task: Task) returns (filtered: seq<Node>)
    ensures forall n :: n in filtered <==> n in candidates && Fits(task, n)
  {
    hide Fits;
    filtered := [];
    for i := 0 to |candidates|
      invariant forall n :: n in filtered <==> n in candidates[..i] && Fits(task, n)
    {
      if Fits(task, candidates[i]) { filtered := filtered + [candidates[i]]; }
    }
    assert candidates[..|candidates|] == candidates;
  }

  /** The least used of the cached nodes that match the task's labels and have room for
      it; an error exactly when there is none, and no node without a node manager. */
  method SelectNode(nodeMgr: NodeManager?, task: Task) returns (r: Result<Option<Node>>)
    ensures nodeMgr == null ==> r == Ok(None)
    ensures nodeMgr != null ==>
              (r.Err? <==> forall id :: id in nodeMgr.online ==> !Eligible(task, nodeMgr.online[id]))
    ensures nodeMgr != null && r.Ok? ==>
              r.value.Some? && exists id :: IsBest(nodeMgr.online, task, id) && nodeMgr.online[id] == r.value.value
    ensures nodeMgr != null && r.Ok? && Reasonable(r.value.value) ==>
              exists used :: UsedCpus(r.value.value, used) && HasRoom(task, r.value.value, used)
    ensures nodeMgr != null && r.Err? ==> NoRoom(nodeMgr.online, task)
  {
    if nodeMgr == null { return Ok(None); }
    var candidates, ids := nodeMgr.FindByLabels(task.job.nodeSelector);
    hide NoRoom, HasRoom, UsedCpus, Reasonable, Fits, Matches;
    NoneEligibleMeansNoRoom(nodeMgr.online, task);
    if |candidates| == 0 { return Err; }
    var filtered := FilterByRoom(candidates, task);
    if |filtered| == 0 { return Err; }
    var sorted := SortByUsage(filtered);
    BagMembers(sorted, filtered);
    assert sorted[0] in filtered;
    var id :| id in nodeMgr.online && nodeMgr.online[id] == sorted[0];
    assert IsBest(nodeMgr.online, task, id);
    hide IsBest;
    if Reasonable(sorted[0]) { EligibleHasRoom(task, sorted[0]); }
    r := Ok(Some(sorted[0]));
  }
}
