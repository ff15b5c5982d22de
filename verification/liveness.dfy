/** Offline detection without etcd, over timed runs of the node manager
    (internal/nodemanager/manager.go): heartbeats, registrations, status changes and
    periodic checks in any order. */
module Liveness {
  import opened Tasks
  import opened Nodes
  import opened NodeManagement

  datatype Action =
    | Beat(id: NodeId, usage: Option<Usage>, version: string)
    | Check
    | Join(node: Node)
    | Mark(id: NodeId, status: NodeStatus)

  datatype Event = Event(time: int, action: Action)

  function Apply(f: Fleet, e: Event): Fleet {
    match e.action
    case Beat(id, usage, version) => Heartbeat(f, id, usage, version, e.time)
    case Check => CheckOffline(f, e.time)
    case Join(node) => Register(f, node)
    case Mark(id, status) => SetStatus(f, id, status)
  }

  function Run(f: Fleet, es: seq<Event>): Fleet
    decreases |es|
  {
    if es == [] then f else Run(Apply(f, es[0]), es[1..])
  }

  /** Registrations get fresh ids, so `id` is never registered again. */
  ghost predicate JoinsOthers(es: seq<Event>, id: NodeId) {
    forall i :: 0 <= i < |es| && es[i].action.Join? ==> es[i].action.node.nodeId != id
  }

  predicate IsBeat(e: Event, id: NodeId) {
    e.action.Beat? && e.action.id == id
  }

  /** The last heartbeat of `id`, given that the one before the run was at `beat`. */
  function LastBeat(beat: int, es: seq<Event>, id: NodeId): int
    decreases |es|
  {
    if es == [] then beat else LastBeat(if IsBeat(es[0], id) then es[0].time else beat, es[1..], id)
  }

  /** At every event the last heartbeat of `id` is at most 30 seconds old. */
  predicate BeatsSteadily(beat: int, es: seq<Event>, id: NodeId)
    decreases |es|
  {
    es == []
    || (es[0].time - beat <= 30 * SECOND
        && BeatsSteadily(if IsBeat(es[0], id) then es[0].time else beat, es[1..], id))
  }

  /** Main result: a cached node whose heartbeats are never more than 30 seconds apart
      is never evicted, and its cached timestamp is that of its last heartbeat. */
  lemma {:induction false} SteadyNodeStays(f: Fleet, es: seq<Event>, id: NodeId, beat: int)
    requires id in f.online && f.online[id].lastHeartbeat == Some(beat)
    requires BeatsSteadily(beat, es, id) && JoinsOthers(es, id)
    ensures id in Run(f, es).online
    ensures Run(f, es).online[id].lastHeartbeat == Some(LastBeat(beat, es, id))
    decreases |es|
  {
    if es != [] {
      var f' := Apply(f, es[0]);
      var beat' := if IsBeat(es[0], id) then es[0].time else beat;
      assert id in f'.online && f'.online[id].lastHeartbeat == Some(beat');
      SteadyNodeStays(f', es[1..], id, beat');
    }
  }

  /** No heartbeat of `id` and no manual change of its status. */
  ghost predicate Silent(es: seq<Event>, id: NodeId) {
    forall i :: 0 <= i < |es| ==> !IsBeat(es[i], id) && !(es[i].action.Mark? && es[i].action.id == id)
  }

  /** The last check, given that the one before the run was at `check`. */
  function LastCheck(check: int, es: seq<Event>): int
    decreases |es|
  {
    if es == [] then check else LastCheck(if es[0].action.Check? then es[0].time else check, es[1..])
  }

  /** `id` has been taken out of the cache and its row says Offline. */
  predicate Evicted(f: Fleet, id: NodeId) {
    id !in f.online && id in f.store && f.store[id].status == Offline
  }

  lemma {:induction false} EvictedStaysOut(f: Fleet, es: seq<Event>, id: NodeId)
    requires Evicted(f, id) && Silent(es, id) && JoinsOthers(es, id)
    ensures Evicted(Run(f, es), id)
    decreases |es|
  {
    if es != [] {
      assert Evicted(Apply(f, es[0]), id);
      EvictedStaysOut(Apply(f, es[0]), es[1..], id);
    }
  }

  /** Before any check later than 30 seconds after its last heartbeat a silent node is
      untouched; the first such check evicts it. */
  lemma {:induction false} LateCheckEvicts(f: Fleet, es: seq<Event>, id: NodeId, beat: int, check: int)
    requires id in f.online && id in f.store && f.online[id].lastHeartbeat == Some(beat)
    requires Silent(es, id) && JoinsOthers(es, id)
    requires check <= beat + 30 * SECOND < LastCheck(check, es)
    ensures Evicted(Run(f, es), id)
    decreases |es|
  {
    var f' := Apply(f, es[0]);
    if es[0].action.Check? && es[0].time > beat + 30 * SECOND {
      assert Evicted(f', id);
      EvictedStaysOut(f', es[1..], id);
    } else {
      assert id in f'.online && id in f'.store && f'.online[id].lastHeartbeat == Some(beat);
      LateCheckEvicts(f', es[1..], id, beat, if es[0].action.Check? then es[0].time else check);
    }
  }

  /** Main result: a node silent since `beat` has left the cache, and is written
      Offline, at every time `now` later than 35 seconds after `beat` at which the last
      check is no more than five seconds old. */
  lemma SilentNodeLeaves(f: Fleet, es: seq<Event>, id: NodeId, beat: int, check: int, now: int)
    requires id in f.online && id in f.store && f.online[id].lastHeartbeat == Some(beat)
    requires Silent(es, id) && JoinsOthers(es, id)
    requires check <= beat + 30 * SECOND
    requires now <= LastCheck(check, es) + 5 * SECOND && now > beat + 35 * SECOND
    ensures Evicted(Run(f, es), id)
  {
    LateCheckEvicts(f, es, id, beat, check);
  }

  /** The other half of the rule: until a check comes later than 30 seconds after the
      last heartbeat, a silent node stays in the cache. */
  lemma {:induction false} SilentNodeStaysUntil(f: Fleet, es: seq<Event>, id: NodeId, beat: int)
    requires id in f.online && f.online[id].lastHeartbeat == Some(beat)
    requires Silent(es, id) && JoinsOthers(es, id)
    requires forall i :: 0 <= i < |es| && es[i].action.Check? ==> es[i].time <= beat + 30 * SECOND
    ensures id in Run(f, es).online && Run(f, es).online[id] == f.online[id]
    decreases |es|
  {
    if es != [] {
      var f' := Apply(f, es[0]);
      assert id in f'.online && f'.online[id] == f.online[id];
      SilentNodeStaysUntil(f', es[1..], id, beat);
    }
  }

  /** A node that has registered and never sent a heartbeat is never evicted, however
      long it is silent and however often the checks run. */
  lemma {:induction false} NeverBeatenNeverEvicted(f: Fleet, es: seq<Event>, id: NodeId)
    requires id in f.online && f.online[id].lastHeartbeat.None?
    requires JoinsOthers(es, id) && forall i :: 0 <= i < |es| ==> !IsBeat(es[i], id)
    ensures id in Run(f, es).online && Run(f, es).online[id].lastHeartbeat.None?
    decreases |es|
  {
    if es != [] {
      var f' := Apply(f, es[0]);
      assert id in f'.online && f'.online[id].lastHeartbeat.None?;
      NeverBeatenNeverEvicted(f', es[1..], id);
    }
  }

  /** Some check of the run comes when the cached node, as it is, is stale. */
  ghost predicate StaleAtSomeCheck(node: Node, es: seq<Event>) {
    exists i :: 0 <= i < |es| && es[i].action.Check? && Overdue(node, es[i].time)
  }

  /** The node was heard, and more than 30 seconds ago. */
  predicate Overdue(node: Node, now: int) {
    node.lastHeartbeat.Some? && now > node.lastHeartbeat.value + 30 * SECOND
  }

  /** For a silent node exactly that decides. */
  lemma {:induction false} SilentLeavesIff(f: Fleet, es: seq<Event>, id: NodeId)
    requires id in f.online && id in f.store && Silent(es, id) && JoinsOthers(es, id)
    ensures id !in Run(f, es).online <==> StaleAtSomeCheck(f.online[id], es)
    decreases |es|
  {
    if es != [] {
      var f' := Apply(f, es[0]);
      if es[0].action.Check? && Overdue(f.online[id], es[0].time) {
        assert Evicted(f', id);
        EvictedStaysOut(f', es[1..], id);
        assert StaleAtSomeCheck(f.online[id], es);
      } else {
        assert id in f'.online && id in f'.store && f'.online[id] == f.online[id];
        SilentLeavesIff(f', es[1..], id);
        LaterChecks(f.online[id], es);
      }
    }
  }

  lemma LaterChecks(node: Node, es: seq<Event>)
    requires es != [] && !(es[0].action.Check? && Overdue(node, es[0].time))
    ensures StaleAtSomeCheck(node, es) <==> StaleAtSomeCheck(node, es[1..])
  {
    if StaleAtSomeCheck(node, es) {
      var i :| 0 <= i < |es| && es[i].action.Check? && Overdue(node, es[i].time);
      assert es[1..][i - 1] == es[i];
    }
  }

  /** Main result: a node that its heartbeat reads back from the table is judged by the
      timestamp the table had before that heartbeat.  Silent from then on, it leaves the
      cache exactly when a check comes more than 30 seconds after that old timestamp,
      however fresh the heartbeat is. */
  lemma RecoveredNodeLeavesIff(f: Fleet, id: NodeId, usage: Option<Usage>, version: string, heard: int, es: seq<Event>)
    requires id !in f.online && id in f.store && Silent(es, id) && JoinsOthers(es, id)
    ensures var f' := Heartbeat(f, id, usage, version, heard);
            && id in f'.online && f'.online[id] == f.store[id] && f'.store[id].lastHeartbeat == Some(heard)
            && (id !in Run(f', es).online <==> StaleAtSomeCheck(f.store[id], es))
  {
    SilentLeavesIff(Heartbeat(f, id, usage, version, heard), es, id);
  }
}
