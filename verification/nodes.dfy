/** Compute nodes (internal/model/node.go) and how the node manager caches, matches
    and expires them without etcd (internal/nodemanager/manager.go). */
module Nodes {
  import opened Tasks

  datatype NodeStatus = Online | Offline | Drain | Cordon

  datatype Usage = Usage(cpuPct: real, memoryUsedMb: int, diskUsedMb: int, load1m: real, runningTasks: int)

  const NO_USAGE := Usage(0.0, 0, 0, 0.0, 0)

  datatype Node = Node(
    nodeId: NodeId,
    hostname: string,
    version: string,
    status: NodeStatus,
    totalCpu: int,
    totalMemoryMb: int,
    usage: Usage,
    labels: seq<string>,
    lastHeartbeat: Option<int>
  ) {
    predicate IsSchedulable() {
      status == Online
    }

    predicate HasLabel(tag: string) {
      tag in labels
    }
  }

  // ----- Labels -----

  /** The position of the first '=' of `s`, or its length. */
  function FirstEquals(s: string): (i: nat)
    ensures i <= |s| && '=' !in s[..i] && (i < |s| ==> s[i] == '=')
  {
    if s == "" || s[0] == '=' then 0 else 1 + FirstEquals(s[1..])
  }

  /** strings.SplitN(s, "=", 2). */
  function SplitLabel(tag: string): seq<string> {
    var i := FirstEquals(tag);
    if i == |tag| then [tag] else [tag[..i], tag[i + 1..]]
  }

  /** Splitting a label and joining the parts gives the label back. */
  lemma SplitLabelJoins(tag: string)
    ensures |SplitLabel(tag)| == 2 ==> tag == SplitLabel(tag)[0] + "=" + SplitLabel(tag)[1]
    ensures |SplitLabel(tag)| == 1 <==> '=' !in tag
  {
  }

  predicate Accepts(node: Node, k: string, v: string) {
    node.HasLabel(k + "=" + v) || node.HasLabel(v) || node.HasLabel(k)
  }

  /** The rule FindByLabels comes down to. */
  predicate Matches(node: Node, selector: map<string, string>) {
    node.IsSchedulable() && forall k :: k in selector ==> Accepts(node, k, selector[k])
  }

  /** What the split-based inner loop of FindByLabels looks for. */
  predicate SplitAccepts(tag: string, k: string, v: string) {
    var parts := SplitLabel(tag);
    (|parts| == 2 && parts[0] == k && parts[1] == v) || tag == v
  }

  /** The inner loop adds nothing: whatever it finds the direct test has found. */
  lemma SplitLoopIsRedundant(node: Node, k: string, v: string, tag: string)
    requires tag in node.labels && SplitAccepts(tag, k, v)
    ensures Accepts(node, k, v)
  {
    SplitLabelJoins(tag);
  }
}

module NodeManagement {
  import opened Tasks
  import opened Nodes

  const OFFLINE_AFTER: int := 30 * SECOND

  /** The cache of online nodes and the nodes table. */
  datatype Fleet = Fleet(online: map<NodeId, Node>, store: map<NodeId, Node>)

  predicate Stale(node: Node, now: int) {
    node.lastHeartbeat.Some? && now - node.lastHeartbeat.value > OFFLINE_AFTER
  }

  function StoreHeartbeat(store: map<NodeId, Node>, id: NodeId, usage: Option<Usage>, now: int): map<NodeId, Node> {
    if id !in store then store
    else store[id := store[id].(usage := if usage.Some? then usage.value else NO_USAGE, lastHeartbeat := Some(now))]
  }

  function Beaten(node: Node, usage: Option<Usage>, version: string, now: int): Node {
    node.(usage := if usage.Some? then usage.value else node.usage,
          version := version, lastHeartbeat := Some(now), status := Online)
  }

  /** A heartbeat refreshes a cached node; an unknown one is first read back from the
      table, with the timestamp the table has. */
  function Heartbeat(f: Fleet, id: NodeId, usage: Option<Usage>, version: string, now: int): Fleet {
    if id in f.online then
      Fleet(f.online[id := Beaten(f.online[id], usage, version, now)], StoreHeartbeat(f.store, id, usage, now))
    else if id in f.store then
      Fleet(f.online[id := f.store[id]], StoreHeartbeat(f.store, id, usage, now))
    else f
  }

  function Register(f: Fleet, node: Node): Fleet {
    Fleet(f.online[node.nodeId := node], f.store[node.nodeId := node])
  }

  function SetStatus(f: Fleet, id: NodeId, status: NodeStatus): Fleet {
    if id in f.online then
      var node := f.online[id].(status := status);
      Fleet(f.online[id := node], if id in f.store then f.store[id := node] else f.store)
    else if id in f.store then f.(store := f.store[id := f.store[id].(status := status)])
    else f
  }

  /** Every stale node leaves the cache and is written Offline. */
  function CheckOffline(f: Fleet, now: int): Fleet {
    Fleet(map id | id in f.online && !Stale(f.online[id], now) :: f.online[id],
          map id | id in f.store ::
            if id in f.online && Stale(f.online[id], now) then f.online[id].(status := Offline) else f.store[id])
  }

  lemma ListedByIds(online: map<NodeId, Node>, result: seq<Node>, ids: seq<NodeId>, selector: map<string, string>,
      n: Node)
    requires |result| == |ids| && forall i :: 0 <= i < |ids| ==> ids[i] in online && result[i] == online[ids[i]]
    requires forall id :: id in ids <==> id in online && Matches(online[id], selector)
    ensures n in result <==> exists id :: id in online && online[id] == n && Matches(n, selector)
  {
    if n in result {
      var i :| 0 <= i < |result| && result[i] == n;
      assert ids[i] in ids;
    }
    if id :| id in online && online[id] == n && Matches(n, selector) {
      var i :| 0 <= i < |ids| && ids[i] == id;
      assert result[i] == n;
    }
  }

  class NodeManager {
    var online: map<NodeId, Node>
    var store: map<NodeId, Node>

    ghost function View(): Fleet
      reads this
    {
      Fleet(online, store)
    }

    constructor ()
      ensures View() == Fleet(map[], map[])
    {
      online, store := map[], map[];
    }

    /** `stored` says whether the insert succeeds; a node that cannot be stored is not cached. */
    method RegisterNode(node: Node, stored: bool) returns (ok: bool)
      modifies this
      ensures View() == (if stored then Register(old(View()), node) else old(View())) && ok == stored
      ensures online == if stored then old(online)[node.nodeId := node] else old(online)
      ensures store == if stored then old(store)[node.nodeId := node] else old(store)
    {
      ok := stored;
      if !stored { return; }
      store := store[node.nodeId := node];
      online := online[node.nodeId := node];
    }

    /** A cached node takes over what the heartbeat says and is Online; an unknown one is
        read back from the table as it is there.  The table takes over the usage, zero when
        there is none, and the time. */
    method ReceiveHeartbeat(id: NodeId, usage: Option<Usage>, version: string, now: int) returns (known: bool)
      modifies this
      ensures View() == Heartbeat(old(View()), id, usage, version, now)
      ensures known <==> id in old(online) || id in old(store)
      ensures id in old(online) ==>
                online == old(online)[id := old(online)[id].(
                  usage := if usage.Some? then usage.value else old(online)[id].usage,
                  version := version, lastHeartbeat := Some(now), status := Online)]
      ensures id !in old(online) ==>
                online == if id in old(store) then old(online)[id := old(store)[id]] else old(online)
      ensures store == if id !in old(store) then old(store)
                       else old(store)[id := old(store)[id].(
                         usage := if usage.Some? then usage.value else Usage(0.0, 0, 0, 0.0, 0),
                         lastHeartbeat := Some(now))]
    {
      known := true;
      if id in online {
        var node := online[id];
        if usage.Some? { node := node.(usage := usage.value); }
        node := node.(version := version);
        node := node.(lastHeartbeat := Some(now));
        node := node.(status := Online);
        online := online[id := node];
        store := StoreHeartbeat(store, id, usage, now);
        return;
      }
      if id !in store { return false; }
      online := online[id := store[id]];
      store := StoreHeartbeat(store, id, usage, now);
    }

    method ChangeStatus(id: NodeId, status: NodeStatus) returns (known: bool)
      modifies this
      ensures View() == SetStatus(old(View()), id, status)
      ensures known <==> id in old(online) || id in old(store)
      ensures online == if id in old(online) then old(online)[id := old(online)[id].(status := status)] else old(online)
      ensures store == if id !in old(store) then old(store)
                       else old(store)[id := (if id in old(online) then old(online)[id] else old(store)[id])
                                               .(status := status)]
    {
      known := true;
      if id in online {
        var node := online[id].(status := status);
        online := online[id := node];
        if id in store { store := store[id := node]; }
      } else if id in store {
        store := store[id := store[id].(status := status)];
      } else {
        known := false;
      }
    }

    method CheckOfflineNodes(now: int)
      modifies this
      ensures View() == CheckOffline(old(View()), now)
    {
      var rest := online.Keys;
      while rest != {}
        invariant rest <= old(online).Keys
        invariant online == map id | id in old(online)
                  && (id in rest || !Stale(old(online)[id], now)) :: old(online)[id]
        invariant store == map id | id in old(store) ::
          if id in old(online) && id !in rest && Stale(old(online)[id], now)
          then old(online)[id].(status := Offline) else old(store)[id]
        decreases |rest|
      {
        var id :| id in rest;
        rest := rest - {id};
        var node := online[id];
        if Stale(node, now) {
          node := node.(status := Offline);
          if id in store { store := store[id := node]; }
          online := online - {id};
        }
      }
    }

    /** The nodes that match every selector, each once; `ids` names them. */
    method FindByLabels(selector: map<string, string>) returns (result: seq<Node>, ghost ids: seq<NodeId>)
      ensures |result| == |ids|
      ensures forall i, j :: 0 <= i < j < |ids| ==> ids[i] != ids[j]
      ensures forall i :: 0 <= i < |ids| ==> ids[i] in online && result[i] == online[ids[i]]
      ensures forall id :: id in ids <==> id in online && Matches(online[id], selector)
      ensures forall id :: id in ids <==>
                && id in online && online[id].status == Online
                && forall k :: k in selector ==>
                     || k + "=" + selector[k] in online[id].labels
                     || selector[k] in online[id].labels || k in online[id].labels
      ensures forall n :: n in result <==> exists id :: id in online && online[id] == n && Matches(n, selector)
    {
      result, ids := [], [];
      var rest := online.Keys;
      while rest != {}
        invariant rest <= online.Keys && |result| == |ids|
        invariant forall i, j :: 0 <= i < j < |ids| ==> ids[i] != ids[j]
        invariant forall i :: 0 <= i < |ids| ==> ids[i] in online && result[i] == online[ids[i]]
        invariant forall id :: id in ids <==> id in online && id !in rest && Matches(online[id], selector)
        decreases |rest|
      {
        var id :| id in rest;
        rest := rest - {id};
        var ok := MatchOne(online[id], selector);
        if ok {
          result := result + [online[id]];
          ids := ids + [id];
        }
      }
      forall n ensures n in result <==> exists id :: id in online && online[id] == n && Matches(n, selector) {
        ListedByIds(online, result, ids, selector, n);
      }
    }

    static method MatchOne(node: Node, selector: map<string, string>) returns (ok: bool)
      ensures ok <==> Matches(node, selector)
    {
      if !node.IsSchedulable() { return false; }
      ok := true;
      var keys := selector.Keys;
      while keys != {}
        invariant keys <= selector.Keys
        invariant ok && forall k :: k in selector && k !in keys ==> Accepts(node, k, selector[k])
        decreases |keys|
      {
        var k :| k in keys;
        keys := keys - {k};
        var v := selector[k];
        if node.HasLabel(k + "=" + v) || node.HasLabel(v) || node.HasLabel(k) { continue; }
        var found := false;
        for i := 0 to |node.labels|
          invariant !found
        {
          var tag := node.labels[i];
          var parts := SplitLabel(tag);
          if |parts| == 2 && parts[0] == k && parts[1] == v {
            SplitLoopIsRedundant(node, k, v, tag);
            found := true;
            break;
          }
          if tag == v {
            found := true;
            break;
          }
        }
        if !found {
          ok := false;
          break;
        }
      }
    }
  }
}
