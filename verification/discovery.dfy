/** The in-memory replica of the node registry in etcd (internal/discovery/discovery.go):
    a load of every key under "/nodes/" at some revision, a watch from the next one, and
    listeners with bounded buffers. */
module Discovery {
  import opened Tasks

  type Value = string

  // ----- Keys -----

  const PREFIX := "/nodes/"

  /** The position of the first '/' of `s`, or its length. */
  function FirstSlash(s: string): (i: nat)
    ensures i <= |s| && '/' !in s[..i] && (i < |s| ==> s[i] == '/')
  {
    if s == "" || s[0] == '/' then 0 else 1 + FirstSlash(s[1..])
  }

  function TrimPrefix(key: string): string {
    if PREFIX <= key then key[|PREFIX|..] else key
  }

  /** The first segment after the prefix; "" when there is none. */
  function ExtractNodeId(key: string): NodeId {
    var rest := TrimPrefix(key);
    rest[..FirstSlash(rest)]
  }

  /** The key under which the node manager registers a node. */
  function NodeKey(id: NodeId): string {
    PREFIX + id + "/status"
  }

  lemma {:induction false} FirstSlashAfter(id: string, more: string)
    requires '/' !in id
    ensures FirstSlash(id + "/" + more) == |id|
    decreases |id|
  {
    if id != "" {
      assert (id + "/" + more)[1..] == id[1..] + "/" + more;
      assert id[0] in id;
      FirstSlashAfter(id[1..], more);
    }
  }

  /** The id of a registered node is read back from its key unless it contains a slash. */
  lemma NodeKeyRoundTrip(id: NodeId)
    ensures NodeKey(id) == "/nodes/" + id + "/status"
    ensures ExtractNodeId(NodeKey(id)) == id <==> '/' !in id
  {
    var rest := id + "/" + "status";
    assert rest == id + "/status" && NodeKey(id) == PREFIX + rest;
    assert TrimPrefix(NodeKey(id)) == rest;
    if '/' !in id {
      FirstSlashAfter(id, "status");
      assert rest[..|id|] == id;
    }
  }

  // ----- The registry -----

  /** The history of the registry lists every change to a key under "/nodes/"; a revision
      is a position in it. */
  datatype Change = PutKey(key: string, value: Value) | DeleteKey(key: string)

  function ApplyChange(store: map<string, Value>, ch: Change): map<string, Value> {
    match ch
    case PutKey(key, value) => store[key := value]
    case DeleteKey(key) => store - {key}
  }

  function StoreAfter(store: map<string, Value>, changes: seq<Change>): map<string, Value>
    decreases |changes|
  {
    if changes == [] then store
    else ApplyChange(StoreAfter(store, changes[..|changes| - 1]), changes[|changes| - 1])
  }

  /** The answer of a range read: every key once, in some order. */
  ghost predicate IsListing(store: map<string, Value>, kvs: seq<(string, Value)>) {
    && (forall kv :: kv in kvs ==> kv.0 in store && store[kv.0] == kv.1)
    && (forall k :: k in store ==> (k, store[k]) in kvs)
  }

  // ----- The replica -----

  function ApplyToNodes(nodes: map<NodeId, Value>, ch: Change): map<NodeId, Value> {
    var id := ExtractNodeId(ch.key);
    if id == "" then nodes
    else
      match ch
      case PutKey(_, value) => nodes[id := value]
      case DeleteKey(_) => nodes - {id}
  }

  function NodesAfter(nodes: map<NodeId, Value>, changes: seq<Change>): map<NodeId, Value>
    decreases |changes|
  {
    if changes == [] then nodes
    else ApplyToNodes(NodesAfter(nodes, changes[..|changes| - 1]), changes[|changes| - 1])
  }

  function PutsOf(kvs: seq<(string, Value)>): seq<Change> {
    if kvs == [] then [] else PutsOf(kvs[..|kvs| - 1]) + [PutKey(kvs[|kvs| - 1].0, kvs[|kvs| - 1].1)]
  }

  /** The replica holds, for each node id, the value of the key it is read from. */
  ghost predicate Mirrors(nodes: map<NodeId, Value>, store: map<string, Value>) {
    && (forall key :: key in store && ExtractNodeId(key) != "" ==>
          ExtractNodeId(key) in nodes && nodes[ExtractNodeId(key)] == store[key])
    && (forall id :: id in nodes ==> exists key :: key in store && ExtractNodeId(key) == id != "")
  }

  /** No two keys are read as the same node. */
  ghost predicate OneKeyPerNode(keys: set<string>) {
    forall k, l :: k in keys && l in keys && ExtractNodeId(k) == ExtractNodeId(l) != "" ==> k == l
  }

  ghost function KeysOf(changes: seq<Change>): set<string> {
    set ch | ch in changes :: ch.key
  }

  lemma PutKeepsMirrors(nodes: map<NodeId, Value>, store: map<string, Value>, key: string, value: Value,
      keys: set<string>)
    requires Mirrors(nodes, store) && OneKeyPerNode(keys) && store.Keys <= keys && key in keys
             && ExtractNodeId(key) != ""
    ensures Mirrors(nodes[ExtractNodeId(key) := value], store[key := value])
  {
    hide ExtractNodeId;
    var nodes', store' := nodes[ExtractNodeId(key) := value], store[key := value];
    forall id | id in nodes' ensures exists k :: k in store' && ExtractNodeId(k) == id != "" {
      if id == ExtractNodeId(key) {
        assert key in store';
      } else {
        var k :| k in store && ExtractNodeId(k) == id != "";
        assert k in store';
      }
    }
  }

  lemma DeleteKeepsMirrors(nodes: map<NodeId, Value>, store: map<string, Value>, key: string, keys: set<string>)
    requires Mirrors(nodes, store) && OneKeyPerNode(keys) && store.Keys <= keys && key in keys
             && ExtractNodeId(key) != ""
    ensures Mirrors(nodes - {ExtractNodeId(key)}, store - {key})
  {
  }

  lemma ChangeKeepsMirrors(nodes: map<NodeId, Value>, store: map<string, Value>, ch: Change, keys: set<string>)
    requires Mirrors(nodes, store) && OneKeyPerNode(keys) && store.Keys <= keys && ch.key in keys
    ensures Mirrors(ApplyToNodes(nodes, ch), ApplyChange(store, ch)) && ApplyChange(store, ch).Keys <= keys
  {
    hide ExtractNodeId;
    if ExtractNodeId(ch.key) != "" {
      hide Mirrors;
      match ch {
        case PutKey(key, value) => PutKeepsMirrors(nodes, store, key, value, keys);
        case DeleteKey(key) => DeleteKeepsMirrors(nodes, store, key, keys);
      }
    } else {
      UnreadKeysDoNotMatter(nodes, store, ApplyChange(store, ch), ch.key);
    }
  }

  lemma UnreadKeysDoNotMatter(nodes: map<NodeId, Value>, store: map<string, Value>, store': map<string, Value>,
      key: string)
    requires Mirrors(nodes, store) && ExtractNodeId(key) == ""
    requires forall k :: k != key ==> (k in store <==> k in store') && (k in store ==> store[k] == store'[k])
    ensures Mirrors(nodes, store')
  {
  }

  lemma {:induction false} ChangesKeepMirrors(nodes: map<NodeId, Value>, store: map<string, Value>,
      changes: seq<Change>, keys: set<string>)
    requires Mirrors(nodes, store) && OneKeyPerNode(keys) && store.Keys <= keys
    requires forall ch :: ch in changes ==> ch.key in keys
    ensures Mirrors(NodesAfter(nodes, changes), StoreAfter(store, changes)) && StoreAfter(store, changes).Keys <= keys
    decreases |changes|
  {
    hide Mirrors, OneKeyPerNode;
    if changes != [] {
      var front := changes[..|changes| - 1];
      ChangesKeepMirrors(nodes, store, front, keys);
      ChangeKeepsMirrors(NodesAfter(nodes, front), StoreAfter(store, front), changes[|changes| - 1], keys);
    }
  }

  lemma PutsSnoc(front: seq<(string, Value)>, last: (string, Value))
    ensures StoreAfter(map[], PutsOf(front + [last])) == StoreAfter(map[], PutsOf(front))[last.0 := last.1]
  {
  }

  lemma {:induction false} PutsTouchOnly(kvs: seq<(string, Value)>, keys: set<string>)
    requires forall kv :: kv in kvs ==> kv.0 in keys
    ensures forall ch :: ch in PutsOf(kvs) ==> ch.key in keys
  {
    if kvs != [] {
      assert kvs[|kvs| - 1] in kvs;
      PutsTouchOnly(kvs[..|kvs| - 1], keys);
    }
  }

  lemma {:induction false} ListingRestores(store: map<string, Value>, kvs: seq<(string, Value)>)
    requires forall kv :: kv in kvs ==> kv.0 in store && store[kv.0] == kv.1
    ensures var got := StoreAfter(map[], PutsOf(kvs));
            (forall kv :: kv in kvs ==> kv.0 in got) && forall k :: k in got ==> k in store && got[k] == store[k]
    decreases |kvs|
  {
    if kvs != [] {
      var front, last := kvs[..|kvs| - 1], kvs[|kvs| - 1];
      assert kvs == front + [last];
      ListingRestores(store, front);
      PutsSnoc(front, last);
    }
  }

  lemma ListingIsWhole(store: map<string, Value>, kvs: seq<(string, Value)>)
    requires IsListing(store, kvs)
    ensures StoreAfter(map[], PutsOf(kvs)) == store
  {
    ListingRestores(store, kvs);
    var got := StoreAfter(map[], PutsOf(kvs));
    forall k | k in store ensures k in got {
      assert (k, store[k]) in kvs;
    }
  }

  lemma {:induction false} StoreConcat(store: map<string, Value>, a: seq<Change>, b: seq<Change>)
    ensures StoreAfter(store, a + b) == StoreAfter(StoreAfter(store, a), b)
    decreases |b|
  {
    if b == [] {
      assert a + b == a;
    } else {
      assert (a + b)[..|a + b| - 1] == a + b[..|b| - 1];
      StoreConcat(store, a, b[..|b| - 1]);
    }
  }

  /** The keys that the registry held when the replica was loaded or that changed since. */
  ghost function KeysSeen(store: map<string, Value>, changes: seq<Change>): set<string> {
    store.Keys + KeysOf(changes)
  }

  lemma NothingMirrorsNothing()
    ensures Mirrors(map[], map[])
  {
  }

  /** Main result: after a load at revision `loaded` and the changes up to `now`, the
      replica mirrors the registry as it is at `now`. */
  lemma ReplicaIsExact(history: seq<Change>, loaded: nat, now: nat, kvs: seq<(string, Value)>)
    requires loaded <= now <= |history| && IsListing(StoreAfter(map[], history[..loaded]), kvs)
    requires OneKeyPerNode(KeysSeen(StoreAfter(map[], history[..loaded]), history[loaded..now]))
    ensures Mirrors(NodesAfter(NodesAfter(map[], PutsOf(kvs)), history[loaded..now]), StoreAfter(map[], history[..now]))
  {
    hide Mirrors, OneKeyPerNode, StoreAfter, NodesAfter;
    var store := StoreAfter(map[], history[..loaded]);
    var keys := KeysSeen(store, history[loaded..now]);
    ListingIsWhole(store, kvs);
    PutsTouchOnly(kvs, keys);
    NothingMirrorsNothing();
    ChangesKeepMirrors(map[], map[], PutsOf(kvs), keys);
    ChangesKeepMirrors(NodesAfter(map[], PutsOf(kvs)), store, history[loaded..now], keys);
    assert history[..now] == history[..loaded] + history[loaded..now];
    StoreConcat(map[], history[..loaded], history[loaded..now]);
  }

  /** The keys that node managers write satisfy this, as long as no id contains a slash. */
  lemma RegisteredKeysAreOnePerNode(keys: set<string>)
    requires forall k :: k in keys ==> exists id :: k == NodeKey(id) && '/' !in id
    ensures OneKeyPerNode(keys)
  {
    forall k, l | k in keys && l in keys && ExtractNodeId(k) == ExtractNodeId(l) != "" ensures k == l {
      var a :| k == NodeKey(a) && '/' !in a;
      var b :| l == NodeKey(b) && '/' !in b;
      NodeKeyRoundTrip(a);
      NodeKeyRoundTrip(b);
    }
  }

  /** The replica that follows a history from the start mirrors the registry. */
  ghost predicate IsMirrored(history: seq<Change>) {
    Mirrors(NodesAfter(map[], history), StoreAfter(map[], history))
  }

  /** Two keys of one node break it: when both are put and one is deleted, the replica has
      lost a node that the registry still has. */
  lemma TwoKeysBreakTheReplica(k: string, l: string, value: Value)
    requires k != l && ExtractNodeId(k) == ExtractNodeId(l) != ""
    ensures !IsMirrored([PutKey(k, value), PutKey(l, value), DeleteKey(k)])
  {
    hide ExtractNodeId;
    var puts := [PutKey(k, value), PutKey(l, value)];
    var history := [PutKey(k, value), PutKey(l, value), DeleteKey(k)];
    assert history[..2] == puts && puts[..1] == [PutKey(k, value)] && [PutKey(k, value)][..0] == [];
    assert NodesAfter(map[], [PutKey(k, value)]) == map[ExtractNodeId(k) := value];
    assert StoreAfter(map[], [PutKey(k, value)]) == map[k := value];
    assert NodesAfter(map[], puts) == map[ExtractNodeId(k) := value]
        && StoreAfter(map[], puts) == map[k := value, l := value];
    assert ExtractNodeId(l) !in NodesAfter(map[], history) && l in StoreAfter(map[], history);
  }

  /** The keys whose every history is mirrored are exactly those with one key per node. */
  lemma MirroredIffOneKeyPerNode(keys: set<string>)
    ensures (forall history :: KeysOf(history) <= keys ==> IsMirrored(history)) <==> OneKeyPerNode(keys)
  {
    hide ExtractNodeId;
    if OneKeyPerNode(keys) {
      forall history | KeysOf(history) <= keys ensures IsMirrored(history) {
        NothingMirrorsNothing();
        ChangesKeepMirrors(map[], map[], history, keys);
      }
    } else {
      var k, l :| k in keys && l in keys && ExtractNodeId(k) == ExtractNodeId(l) != "" && k != l;
      var history := [PutKey(k, ""), PutKey(l, ""), DeleteKey(k)];
      TwoKeysBreakTheReplica(k, l, "");
      assert KeysOf(history) <= keys;
    }
  }

  lemma {:induction false} TailIsPartOfStore(store: map<string, Value>, changes: seq<Change>)
    ensures forall k :: k in StoreAfter(map[], changes) ==>
              k in StoreAfter(store, changes) && StoreAfter(store, changes)[k] == StoreAfter(map[], changes)[k]
    decreases |changes|
  {
    if changes != [] { TailIsPartOfStore(store, changes[..|changes| - 1]); }
  }

  /** When the load fails, the watch starts at whatever revision the registry has reached:
      the replica mirrors what was put since, which is part of the registry. */
  lemma UnloadedReplicaIsPartial(history: seq<Change>, watched: nat, now: nat)
    requires watched <= now <= |history| && OneKeyPerNode(KeysOf(history[watched..now]))
    ensures var part := StoreAfter(map[], history[watched..now]);
            && Mirrors(NodesAfter(map[], history[watched..now]), part)
            && forall k :: k in part ==>
                 k in StoreAfter(map[], history[..now]) && StoreAfter(map[], history[..now])[k] == part[k]
  {
    hide Mirrors, OneKeyPerNode, StoreAfter, NodesAfter;
    NothingMirrorsNothing();
    ChangesKeepMirrors(map[], map[], history[watched..now], KeysOf(history[watched..now]));
    assert history[..now] == history[..watched] + history[watched..now];
    StoreConcat(map[], history[..watched], history[watched..now]);
    TailIsPartOfStore(StoreAfter(map[], history[..watched]), history[watched..now]);
  }

  // ----- Listeners -----

  datatype EventType = NodeAdded | NodeUpdated | NodeRemoved

  datatype NodeEvent = NodeEvent(kind: EventType, nodeId: NodeId, key: string, value: Value)

  const BUFFER: nat := 100

  /** `unread` is the channel's buffer, `received` what the consumer has taken from it;
      `dropped` counts the events that found the buffer full. */
  datatype Listener = Listener(since: nat, received: seq<NodeEvent>, unread: seq<NodeEvent>, dropped: nat)

  function Deliver(l: Listener, e: NodeEvent): Listener {
    if |l.unread| < BUFFER then l.(unread := l.unread + [e]) else l.(dropped := l.dropped + 1)
  }

  /** `sub` is `whole` with some elements left out. */
  ghost predicate InOrderPart<T>(sub: seq<T>, whole: seq<T>)
    decreases |whole|
  {
    if whole == [] then sub == []
    else
      || InOrderPart(sub, whole[..|whole| - 1])
      || (sub != [] && sub[|sub| - 1] == whole[|whole| - 1] && InOrderPart(sub[..|sub| - 1], whole[..|whole| - 1]))
  }

  /** What a listener has been given, of the events emitted since it subscribed. */
  ghost predicate ListenerGood(l: Listener, emitted: seq<NodeEvent>) {
    && l.since <= |emitted| && |l.unread| <= BUFFER
    && InOrderPart(l.received + l.unread, emitted[l.since..])
    && |l.received + l.unread| + l.dropped == |emitted| - l.since
  }

  lemma PartSnoc<T>(sub: seq<T>, whole: seq<T>, x: T)
    requires InOrderPart(sub, whole)
    ensures InOrderPart(sub + [x], whole + [x]) && InOrderPart(sub, whole + [x])
  {
  }

  lemma {:induction false} WholePart<T>(sub: seq<T>, whole: seq<T>)
    requires InOrderPart(sub, whole)
    ensures |sub| <= |whole| && (|sub| == |whole| ==> sub == whole)
    decreases |whole|
  {
    if whole != [] {
      if InOrderPart(sub, whole[..|whole| - 1]) {
        WholePart(sub, whole[..|whole| - 1]);
      } else {
        WholePart(sub[..|sub| - 1], whole[..|whole| - 1]);
        assert whole == whole[..|whole| - 1] + [whole[|whole| - 1]] && sub == sub[..|sub| - 1] + [sub[|sub| - 1]];
      }
    }
  }

  lemma DeliverKeepsGood(l: Listener, emitted: seq<NodeEvent>, e: NodeEvent)
    requires ListenerGood(l, emitted)
    ensures ListenerGood(Deliver(l, e), emitted + [e])
  {
    assert (emitted + [e])[l.since..] == emitted[l.since..] + [e];
    assert l.received + (l.unread + [e]) == l.received + l.unread + [e];
    PartSnoc(l.received + l.unread, emitted[l.since..], e);
  }

  /** A listener that dropped nothing was given every event since it subscribed. */
  lemma NothingDroppedMeansEverything(l: Listener, emitted: seq<NodeEvent>)
    requires ListenerGood(l, emitted)
    ensures l.dropped == 0 <==> l.received + l.unread == emitted[l.since..]
  {
    WholePart(l.received + l.unread, emitted[l.since..]);
  }

  /** What a consumer does with an event to keep a map of its own. */
  function Follow(nodes: map<NodeId, Value>, e: NodeEvent): map<NodeId, Value> {
    if e.kind == NodeRemoved then nodes - {e.nodeId} else nodes[e.nodeId := e.value]
  }

  function FollowAll(nodes: map<NodeId, Value>, es: seq<NodeEvent>): map<NodeId, Value>
    decreases |es|
  {
    if es == [] then nodes else Follow(FollowAll(nodes, es[..|es| - 1]), es[|es| - 1])
  }

  /** The event a change leads to; loading calls every node added. */
  function EventOf(nodes: map<NodeId, Value>, ch: Change, loading: bool): Option<NodeEvent> {
    var id := ExtractNodeId(ch.key);
    if id == "" then None
    else
      match ch
      case PutKey(key, value) =>
        Some(NodeEvent(if loading || id !in nodes then NodeAdded else NodeUpdated, id, key, value))
      case DeleteKey(key) => Some(NodeEvent(NodeRemoved, id, key, ""))
  }

  lemma EventFollowsChange(nodes: map<NodeId, Value>, ch: Change, loading: bool, emitted: seq<NodeEvent>)
    requires FollowAll(map[], emitted) == nodes && EventOf(nodes, ch, loading).Some?
    ensures FollowAll(map[], emitted + [EventOf(nodes, ch, loading).value]) == ApplyToNodes(nodes, ch)
  {
  }

  // ----- Whole runs -----

  /** The cache, its listeners, and every event so far. */
  datatype Replica = Replica(nodes: map<NodeId, Value>, listeners: seq<Listener>, emitted: seq<NodeEvent>)

  const FRESH := Replica(map[], [], [])

  function DeliverAll(ls: seq<Listener>, e: NodeEvent): (r: seq<Listener>)
    ensures |r| == |ls| && forall i :: 0 <= i < |ls| ==> r[i] == Deliver(ls[i], e)
  {
    if ls == [] then [] else DeliverAll(ls[..|ls| - 1], e) + [Deliver(ls[|ls| - 1], e)]
  }

  function AfterChange(r: Replica, ch: Change, loading: bool): Replica {
    match EventOf(r.nodes, ch, loading)
    case None => r.(nodes := ApplyToNodes(r.nodes, ch))
    case Some(e) => Replica(ApplyToNodes(r.nodes, ch), DeliverAll(r.listeners, e), r.emitted + [e])
  }

  function AfterSubscribe(r: Replica): Replica {
    r.(listeners := r.listeners + [Listener(|r.emitted|, [], [], 0)])
  }

  /** The consumer of a channel takes the oldest unread event. */
  function Consume(l: Listener): Listener {
    if l.unread == [] then l else l.(received := l.received + [l.unread[0]], unread := l.unread[1..])
  }

  /** One key of the load, one event of the watch, a new subscriber, a consumer: in any
      order, as they come. */
  datatype Step = SLoad(key: string, value: Value) | SChange(change: Change) | SSubscribe | SReceive(i: nat)

  predicate CanStep(r: Replica, st: Step) {
    st.SReceive? ==> st.i < |r.listeners|
  }

  function After(r: Replica, st: Step): Replica
    requires CanStep(r, st)
  {
    match st
    case SLoad(key, value) => AfterChange(r, PutKey(key, value), true)
    case SChange(ch) => AfterChange(r, ch, false)
    case SSubscribe => AfterSubscribe(r)
    case SReceive(i) => r.(listeners := r.listeners[i := Consume(r.listeners[i])])
  }

  predicate CanSteps(r: Replica, sts: seq<Step>)
    decreases |sts|
  {
    sts == [] || (CanStep(r, sts[0]) && CanSteps(After(r, sts[0]), sts[1..]))
  }

  function Steps(r: Replica, sts: seq<Step>): Replica
    requires CanSteps(r, sts)
    decreases |sts|
  {
    if sts == [] then r else Steps(After(r, sts[0]), sts[1..])
  }

  /** The changes that a run is told about, in order. */
  function ChangesOf(sts: seq<Step>): seq<Change>
    decreases |sts|
  {
    if sts == [] then []
    else
      match sts[0]
      case SLoad(key, value) => [PutKey(key, value)] + ChangesOf(sts[1..])
      case SChange(ch) => [ch] + ChangesOf(sts[1..])
      case _ => ChangesOf(sts[1..])
  }

  ghost predicate Sound(r: Replica) {
    && FollowAll(map[], r.emitted) == r.nodes
    && forall i :: 0 <= i < |r.listeners| ==> ListenerGood(r.listeners[i], r.emitted)
  }

  lemma ConsumeKeepsGood(l: Listener, emitted: seq<NodeEvent>)
    requires ListenerGood(l, emitted)
    ensures ListenerGood(Consume(l), emitted)
  {
    if l.unread != [] { assert l.received + [l.unread[0]] + l.unread[1..] == l.received + l.unread; }
  }

  lemma ChangeKeepsSound(r: Replica, ch: Change, loading: bool)
    requires Sound(r)
    ensures Sound(AfterChange(r, ch, loading))
  {
    hide ListenerGood, ExtractNodeId;
    var e := EventOf(r.nodes, ch, loading);
    if e.Some? {
      EventFollowsChange(r.nodes, ch, loading, r.emitted);
      forall i | 0 <= i < |r.listeners| ensures ListenerGood(Deliver(r.listeners[i], e.value), r.emitted + [e.value]) {
        DeliverKeepsGood(r.listeners[i], r.emitted, e.value);
      }
    }
  }

  lemma StepKeepsSound(r: Replica, st: Step)
    requires Sound(r) && CanStep(r, st)
    ensures Sound(After(r, st))
  {
    match st {
      case SLoad(key, value) => ChangeKeepsSound(r, PutKey(key, value), true);
      case SChange(ch) => ChangeKeepsSound(r, ch, false);
      case SReceive(i) =>
        ConsumeKeepsGood(r.listeners[i], r.emitted);
        hide ListenerGood;
      case SSubscribe =>
        assert r.emitted[|r.emitted|..] == [] && ListenerGood(Listener(|r.emitted|, [], [], 0), r.emitted);
        hide ListenerGood;
    }
  }

  lemma {:induction false} StepsKeepSound(r: Replica, sts: seq<Step>)
    requires Sound(r) && CanSteps(r, sts)
    ensures Sound(Steps(r, sts))
    decreases |sts|
  {
    hide Sound, CanStep, After;
    if sts != [] {
      StepKeepsSound(r, sts[0]);
      StepsKeepSound(After(r, sts[0]), sts[1..]);
    }
  }

  lemma {:induction false} NodesConcat(nodes: map<NodeId, Value>, a: seq<Change>, b: seq<Change>)
    ensures NodesAfter(nodes, a + b) == NodesAfter(NodesAfter(nodes, a), b)
    decreases |b|
  {
    if b == [] {
      assert a + b == a;
    } else {
      assert (a + b)[..|a + b| - 1] == a + b[..|b| - 1];
      NodesConcat(nodes, a, b[..|b| - 1]);
    }
  }

  lemma NodesOfOne(nodes: map<NodeId, Value>, ch: Change)
    ensures NodesAfter(nodes, [ch]) == ApplyToNodes(nodes, ch)
  {
    assert [ch][..0] == [];
  }

  /** Subscribers and consumers do not disturb the cache. */
  lemma {:induction false} NodesOfSteps(r: Replica, sts: seq<Step>)
    requires CanSteps(r, sts)
    ensures Steps(r, sts).nodes == NodesAfter(r.nodes, ChangesOf(sts))
    decreases |sts|
  {
    hide NodesAfter, ApplyToNodes, EventOf;
    if sts == [] {
      NothingChanges(r.nodes);
    } else {
      NodesOfSteps(After(r, sts[0]), sts[1..]);
      match sts[0] {
        case SLoad(key, value) =>
          NodesOfOne(r.nodes, PutKey(key, value));
          NodesConcat(r.nodes, [PutKey(key, value)], ChangesOf(sts[1..]));
        case SChange(ch) =>
          NodesOfOne(r.nodes, ch);
          NodesConcat(r.nodes, [ch], ChangesOf(sts[1..]));
        case _ =>
      }
    }
  }

  lemma NothingChanges(nodes: map<NodeId, Value>)
    ensures NodesAfter(nodes, []) == nodes
  {
  }

  /** The step sends an event to the listeners. */
  predicate Emits(r: Replica, st: Step) {
    match st
    case SLoad(key, value) => EventOf(r.nodes, PutKey(key, value), true).Some?
    case SChange(ch) => EventOf(r.nodes, ch, false).Some?
    case _ => false
  }

  /** Listener `i` has room whenever an event is sent during the run. */
  predicate AlwaysRoom(r: Replica, sts: seq<Step>, i: nat)
    requires CanSteps(r, sts) && i < |r.listeners|
    decreases |sts|
  {
    || sts == []
    || (&& (Emits(r, sts[0]) ==> |r.listeners[i].unread| < 100)
        && i < |After(r, sts[0]).listeners| && AlwaysRoom(After(r, sts[0]), sts[1..], i))
  }

  lemma StepKeepsListener(r: Replica, st: Step, i: nat)
    requires CanStep(r, st) && i < |r.listeners|
    ensures var r' := After(r, st);
            && |r'.listeners| >= |r.listeners| && r'.listeners[i].since == r.listeners[i].since
            && r'.listeners[i].dropped ==
                 r.listeners[i].dropped + if Emits(r, st) && |r.listeners[i].unread| >= BUFFER then 1 else 0
  {
    hide EventOf, ApplyToNodes;
  }

  lemma {:induction false} DroppedIffNoRoom(r: Replica, sts: seq<Step>, i: nat)
    requires CanSteps(r, sts) && i < |r.listeners|
    ensures var r' := Steps(r, sts);
            && |r'.listeners| >= |r.listeners| && r'.listeners[i].since == r.listeners[i].since
            && r'.listeners[i].dropped >= r.listeners[i].dropped
            && (r'.listeners[i].dropped == r.listeners[i].dropped <==> AlwaysRoom(r, sts, i))
    decreases |sts|
  {
    hide CanStep, After, Emits;
    if sts != [] {
      StepKeepsListener(r, sts[0], i);
      DroppedIffNoRoom(After(r, sts[0]), sts[1..], i);
    }
  }

  /** Main result, over whole runs: after a load at revision `loaded` and the changes up to
      `now`, with subscribers and consumers in between as they come, the cache mirrors the
      registry of `now`.  A listener from before the first event has dropped nothing exactly
      when it had room at every event; then its events rebuild the cache, and in any case
      they are an in-order part of all events. */
  lemma SubscribersFollow(history: seq<Change>, loaded: nat, now: nat, kvs: seq<(string, Value)>, r: Replica,
      sts: seq<Step>, i: nat)
    requires loaded <= now <= |history| && IsListing(StoreAfter(map[], history[..loaded]), kvs)
    requires OneKeyPerNode(KeysSeen(StoreAfter(map[], history[..loaded]), history[loaded..now]))
    requires Sound(r) && r.nodes == map[] && r.emitted == [] && i < |r.listeners|
    requires CanSteps(r, sts) && ChangesOf(sts) == PutsOf(kvs) + history[loaded..now]
    ensures i < |Steps(r, sts).listeners|
    ensures var end := Steps(r, sts); var l := end.listeners[i]; var given := l.received + l.unread;
            && Mirrors(end.nodes, StoreAfter(map[], history[..now]))
            && (l.dropped == 0 <==> AlwaysRoom(r, sts, i))
            && (l.dropped == 0 ==> given == end.emitted && FollowAll(map[], given) == end.nodes)
            && InOrderPart(given, end.emitted)
  {
    var end := Steps(r, sts);
    NodesOfSteps(r, sts);
    NodesConcat(map[], PutsOf(kvs), history[loaded..now]);
    ReplicaIsExact(history, loaded, now, kvs);
    StepsKeepSound(r, sts);
    DroppedIffNoRoom(r, sts, i);
    assert ListenerGood(r.listeners[i], r.emitted) && ListenerGood(end.listeners[i], end.emitted);
    NothingDroppedMeansEverything(end.listeners[i], end.emitted);
    assert end.emitted[0..] == end.emitted;
    hide *;
  }

  // ----- The object -----

  class ServiceDiscovery {
    var nodes: map<NodeId, Value>
    var listeners: seq<Listener>
    /** Every event so far, to say what listeners missed. */
    var emitted: seq<NodeEvent>

    function View(): Replica
      reads this
    {
      Replica(nodes, listeners, emitted)
    }

    constructor ()
      ensures View() == FRESH
    {
      nodes, listeners, emitted := map[], [], [];
    }

    method Subscribe() returns (i: nat)
      modifies this`listeners
      ensures View() == After(old(View()), SSubscribe) && i == |old(listeners)|
    {
      i := |listeners|;
      listeners := listeners + [Listener(|emitted|, [], [], 0)];
    }

    method Receive(i: nat) returns (r: Option<NodeEvent>)
      requires i < |listeners|
      modifies this`listeners
      ensures View() == After(old(View()), SReceive(i))
      ensures r == if old(listeners)[i].unread == [] then None else Some(old(listeners)[i].unread[0])
    {
      var l := listeners[i];
      if l.unread == [] { return None; }
      r := Some(l.unread[0]);
      listeners := listeners[i := l.(received := l.received + [l.unread[0]], unread := l.unread[1..])];
    }

    /** Sends an event to every listener with room for it. */
    method Emit(e: NodeEvent)
      modifies this`listeners, this`emitted
      ensures emitted == old(emitted) + [e] && listeners == DeliverAll(old(listeners), e)
    {
      for i := 0 to |listeners|
        invariant |listeners| == |old(listeners)| && emitted == old(emitted)
        invariant forall j :: 0 <= j < i ==> listeners[j] == Deliver(old(listeners)[j], e)
        invariant forall j :: i <= j < |listeners| ==> listeners[j] == old(listeners)[j]
      {
        var l := listeners[i];
        if |l.unread| < BUFFER {
          listeners := listeners[i := l.(unread := l.unread + [e])];
        } else {
          listeners := listeners[i := l.(dropped := l.dropped + 1)];
        }
      }
      emitted := emitted + [e];
    }

    /** One key of the load, or one event of the watch. */
    method HandleChange(ch: Change, loading: bool)
      modifies this
      ensures View() == AfterChange(old(View()), ch, loading)
      ensures var id := ExtractNodeId(ch.key);
              if id == "" then View() == old(View())
              else if ch.PutKey? then
                && nodes == old(nodes)[id := ch.value]
                && emitted == old(emitted) +
                     [NodeEvent(if id in old(nodes) && !loading then NodeUpdated else NodeAdded, id, ch.key, ch.value)]
              else nodes == old(nodes) - {id} && emitted == old(emitted) + [NodeEvent(NodeRemoved, id, ch.key, "")]
    {
      hide ExtractNodeId;
      var id := ExtractNodeId(ch.key);
      if id == "" { return; }
      match ch {
        case PutKey(key, value) =>
          var existed := id in nodes;
          nodes := nodes[id := value];
          Emit(NodeEvent(if existed && !loading then NodeUpdated else NodeAdded, id, key, value));
        case DeleteKey(key) =>
          nodes := nodes - {id};
          Emit(NodeEvent(NodeRemoved, id, key, ""));
      }
    }

    /** Without subscribers or consumers in between. */
    method Load(kvs: seq<(string, Value)>)
      modifies this
      ensures CanSteps(old(View()), LoadSteps(kvs)) && View() == Steps(old(View()), LoadSteps(kvs))
    {
      for n := 0 to |kvs|
        invariant CanSteps(old(View()), LoadSteps(kvs[..n])) && View() == Steps(old(View()), LoadSteps(kvs[..n]))
      {
        assert kvs[..n + 1][..n] == kvs[..n];
        StepsSnoc(old(View()), LoadSteps(kvs[..n]), SLoad(kvs[n].0, kvs[n].1));
        hide AfterChange;
        HandleChange(PutKey(kvs[n].0, kvs[n].1), true);
      }
      assert kvs[..|kvs|] == kvs;
    }

    method Watch(changes: seq<Change>)
      modifies this
      ensures CanSteps(old(View()), WatchSteps(changes)) && View() == Steps(old(View()), WatchSteps(changes))
    {
      for n := 0 to |changes|
        invariant CanSteps(old(View()), WatchSteps(changes[..n]))
                  && View() == Steps(old(View()), WatchSteps(changes[..n]))
      {
        assert changes[..n + 1][..n] == changes[..n];
        StepsSnoc(old(View()), WatchSteps(changes[..n]), SChange(changes[n]));
        hide AfterChange;
        HandleChange(changes[n], false);
      }
      assert changes[..|changes|] == changes;
    }

    /** The whole of StartWatching, alone: a load at revision `loaded`, then the watch from
        the next revision up to `now`.  Every listener stays, with its subscription. */
    method StartWatching(history: seq<Change>, loaded: nat, now: nat, kvs: seq<(string, Value)>)
        returns (ghost sts: seq<Step>)
      requires Sound(View()) && nodes == map[]
      requires loaded <= now <= |history| && IsListing(StoreAfter(map[], history[..loaded]), kvs)
      requires OneKeyPerNode(KeysSeen(StoreAfter(map[], history[..loaded]), history[loaded..now]))
      modifies this
      ensures CanSteps(old(View()), sts) && View() == Steps(old(View()), sts)
      ensures ChangesOf(sts) == PutsOf(kvs) + history[loaded..now]
      ensures Sound(View()) && Mirrors(nodes, StoreAfter(map[], history[..now]))
    {
      ghost var r := View();
      Load(kvs);
      Watch(history[loaded..now]);
      sts := LoadSteps(kvs) + WatchSteps(history[loaded..now]);
      StepsConcat(r, LoadSteps(kvs), WatchSteps(history[loaded..now]));
      ChangesOfStart(kvs, history[loaded..now]);
      NodesOfSteps(r, sts);
      NodesConcat(map[], PutsOf(kvs), history[loaded..now]);
      ReplicaIsExact(history, loaded, now, kvs);
      StepsKeepSound(r, sts);
      hide *;
    }
  }

  function LoadSteps(kvs: seq<(string, Value)>): seq<Step> {
    if kvs == [] then [] else LoadSteps(kvs[..|kvs| - 1]) + [SLoad(kvs[|kvs| - 1].0, kvs[|kvs| - 1].1)]
  }

  function WatchSteps(changes: seq<Change>): seq<Step> {
    if changes == [] then [] else WatchSteps(changes[..|changes| - 1]) + [SChange(changes[|changes| - 1])]
  }

  lemma {:induction false} ChangesConcat(a: seq<Step>, b: seq<Step>)
    ensures ChangesOf(a + b) == ChangesOf(a) + ChangesOf(b)
    decreases |a|
  {
    if a == [] {
      assert a + b == b;
    } else {
      assert (a + b)[1..] == a[1..] + b;
      ChangesConcat(a[1..], b);
    }
  }

  lemma {:induction false} ChangesOfLoad(kvs: seq<(string, Value)>)
    ensures ChangesOf(LoadSteps(kvs)) == PutsOf(kvs)
    decreases |kvs|
  {
    if kvs != [] {
      ChangesOfLoad(kvs[..|kvs| - 1]);
      var last := SLoad(kvs[|kvs| - 1].0, kvs[|kvs| - 1].1);
      assert ChangesOf([last]) == [PutKey(last.key, last.value)] by { assert [last][1..] == []; }
      ChangesConcat(LoadSteps(kvs[..|kvs| - 1]), [last]);
    }
  }

  lemma {:induction false} ChangesOfWatch(changes: seq<Change>)
    ensures ChangesOf(WatchSteps(changes)) == changes
    decreases |changes|
  {
    if changes != [] {
      ChangesOfWatch(changes[..|changes| - 1]);
      var last := SChange(changes[|changes| - 1]);
      assert ChangesOf([last]) == [changes[|changes| - 1]] by { assert [last][1..] == []; }
      ChangesConcat(WatchSteps(changes[..|changes| - 1]), [last]);
      assert changes == changes[..|changes| - 1] + [changes[|changes| - 1]];
    }
  }

  lemma ChangesOfStart(kvs: seq<(string, Value)>, changes: seq<Change>)
    ensures ChangesOf(LoadSteps(kvs) + WatchSteps(changes)) == PutsOf(kvs) + changes
  {
    ChangesOfLoad(kvs);
    ChangesOfWatch(changes);
    ChangesConcat(LoadSteps(kvs), WatchSteps(changes));
  }

  lemma {:induction false} StepsConcat(r: Replica, a: seq<Step>, b: seq<Step>)
    requires CanSteps(r, a) && CanSteps(Steps(r, a), b)
    ensures CanSteps(r, a + b) && Steps(r, a + b) == Steps(Steps(r, a), b)
    decreases |a|
  {
    hide CanStep, After;
    if a == [] {
      assert a + b == b;
    } else {
      assert (a + b)[1..] == a[1..] + b;
      StepsConcat(After(r, a[0]), a[1..], b);
    }
  }

  lemma StepsSnoc(r: Replica, sts: seq<Step>, st: Step)
    requires CanSteps(r, sts) && CanStep(Steps(r, sts), st)
    ensures CanSteps(r, sts + [st]) && Steps(r, sts + [st]) == After(Steps(r, sts), st)
  {
    hide CanStep, After;
    assert [st][1..] == [];
    StepsConcat(r, sts, [st]);
  }
}
