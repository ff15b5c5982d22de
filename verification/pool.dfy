/** The pool of gRPC connections to agents (internal/grpcclient/pool.go): a lookup under
    the read lock, a dial without any lock, and a second lookup under the write lock.
    The steps of any number of callers interleave. */
module ConnectionPool {
  import opened Tasks

  type ConnId = nat

  datatype Client = Client(conn: ConnId)

  /** What callers have seen: a client was returned, a node removed, the pool closed. */
  datatype Entry = Got(node: NodeId, client: Client) | Removed(node: NodeId) | Closed

  /** `open` is the set of connections that were dialled and not closed, `dialing` the
      callers that missed and have no connection yet, `held` the dialled connections whose
      caller waits for the write lock, and `closing` the redundant ones whose caller has
      left it and is about to close them. */
  datatype State = State(
    clients: map<NodeId, Client>,
    conns: map<NodeId, ConnId>,
    open: set<ConnId>,
    dialing: multiset<NodeId>,
    held: map<ConnId, NodeId>,
    closing: set<ConnId>,
    next: ConnId,
    log: seq<Entry>
  )

  const FRESH := State(map[], map[], {}, multiset{}, map[], {}, 0, [])

  /** The first half of GetOrCreate. */
  function Lookup(s: State, node: NodeId): State {
    if node in s.clients then s.(log := s.log + [Got(node, s.clients[node])])
    else s.(dialing := s.dialing + multiset{node})
  }

  function Dial(s: State, node: NodeId, ok: bool): State {
    var left := s.(dialing := s.dialing - multiset{node});
    if ok then left.(open := s.open + {s.next}, held := s.held[s.next := node], next := s.next + 1) else left
  }

  /** The second half of GetOrCreate, under the write lock. */
  function Insert(s: State, conn: ConnId): State
    requires conn in s.held
  {
    var node := s.held[conn];
    var left := s.(held := s.held - {conn});
    if node in s.clients then
      left.(closing := s.closing + {conn}, log := s.log + [Got(node, s.clients[node])])
    else
      left.(clients := s.clients[node := Client(conn)], conns := s.conns[node := conn],
            log := s.log + [Got(node, Client(conn))])
  }

  /** After the write lock is released. */
  function CloseRedundant(s: State, conn: ConnId): State {
    s.(open := s.open - {conn}, closing := s.closing - {conn})
  }

  function Remove(s: State, node: NodeId): State {
    s.(clients := s.clients - {node}, conns := s.conns - {node},
       open := if node in s.conns then s.open - {s.conns[node]} else s.open,
       log := s.log + [Removed(node)])
  }

  function Close(s: State): State {
    s.(clients := map[], conns := map[], open := s.open - s.conns.Values, log := s.log + [Closed])
  }

  datatype Step =
    | DoLookup(node: NodeId)
    | DoDial(node: NodeId, ok: bool)
    | DoInsert(conn: ConnId)
    | DoCloseRedundant(conn: ConnId)
    | DoRemove(node: NodeId)
    | DoClose

  predicate CanStep(s: State, st: Step) {
    match st
    case DoDial(node, _) => node in s.dialing
    case DoInsert(conn) => conn in s.held
    case DoCloseRedundant(conn) => conn in s.closing
    case _ => true
  }

  function After(s: State, st: Step): State
    requires CanStep(s, st)
  {
    match st
    case DoLookup(node) => Lookup(s, node)
    case DoDial(node, ok) => Dial(s, node, ok)
    case DoInsert(conn) => Insert(s, conn)
    case DoCloseRedundant(conn) => CloseRedundant(s, conn)
    case DoRemove(node) => Remove(s, node)
    case DoClose => Close(s)
  }

  predicate CanSteps(s: State, sts: seq<Step>)
    decreases |sts|
  {
    sts == [] || (CanStep(s, sts[0]) && CanSteps(After(s, sts[0]), sts[1..]))
  }

  function Steps(s: State, sts: seq<Step>): State
    requires CanSteps(s, sts)
    decreases |sts|
  {
    if sts == [] then s else Steps(After(s, sts[0]), sts[1..])
  }

  // ----- Accounting -----

  ghost predicate Injective<K, V>(m: map<K, V>) {
    forall i, j :: i in m && j in m && m[i] == m[j] ==> i == j
  }

  /** The two maps agree, and every open connection is in the pool, once, or held by exactly
      one caller, before or after its turn at the write lock. */
  ghost predicate Accounted(s: State) {
    && s.clients.Keys == s.conns.Keys
    && (forall n :: n in s.clients ==> s.clients[n] == Client(s.conns[n]))
    && Injective(s.conns)
    && s.open == s.conns.Values + s.held.Keys + s.closing
    && (forall n :: n in s.conns ==> s.conns[n] !in s.held && s.conns[n] !in s.closing)
    && s.held.Keys !! s.closing
    && (forall c :: c in s.open ==> c < s.next)
  }

  lemma {:induction false} ValuesCount<K, V>(m: map<K, V>)
    requires Injective(m)
    ensures |m.Values| == |m|
    decreases |m|
  {
    if m != map[] {
      var k :| k in m;
      var rest := m - {k};
      ValuesCount(rest);
      assert m.Values == rest.Values + {m[k]} by {
        forall v | v in m.Values ensures v in rest.Values + {m[k]} {
          var j :| j in m && m[j] == v;
          if j != k { assert rest[j] == v; }
        }
      }
      assert m[k] !in rest.Values;
    } else {
      assert m.Values == {};
    }
  }

  /** So the open connections are those of the pool plus those still held. */
  lemma OpenIsPooledPlusHeld(s: State)
    requires Accounted(s)
    ensures |s.open| == |s.conns| + |s.held| + |s.closing|
  {
    ValuesCount(s.conns);
    assert s.conns.Values !! s.held.Keys && s.conns.Values + s.held.Keys !! s.closing;
    assert |s.conns.Values + s.held.Keys| == |s.conns.Values| + |s.held.Keys|;
    assert |s.open| == |s.conns.Values + s.held.Keys| + |s.closing|;
  }

  lemma ValuesAfterInsert<K, V>(m: map<K, V>, k: K, v: V)
    requires k !in m
    ensures m[k := v].Values == m.Values + {v}
  {
    var n := m[k := v];
    forall x | x in m.Values + {v} ensures x in n.Values {
      if x in m.Values {
        var j :| j in m && m[j] == x;
        assert n[j] == x;
      } else {
        assert n[k] == x;
      }
    }
  }

  lemma ValuesAfterRemove<K, V>(m: map<K, V>, k: K)
    requires Injective(m) && k in m
    ensures (m - {k}).Values == m.Values - {m[k]}
  {
    var n := m - {k};
    forall x | x in m.Values - {m[k]} ensures x in n.Values {
      var j :| j in m && m[j] == x;
      assert n[j] == x;
    }
  }

  lemma InsertKeepsAccounted(s: State, conn: ConnId)
    requires Accounted(s) && conn in s.held
    ensures Accounted(Insert(s, conn))
  {
    var node := s.held[conn];
    if node !in s.clients {
      ValuesAfterInsert(s.conns, node, conn);
      assert conn !in s.conns.Values;
    }
  }

  lemma RemoveKeepsAccounted(s: State, node: NodeId)
    requires Accounted(s)
    ensures Accounted(Remove(s, node))
  {
    if node in s.conns {
      ValuesAfterRemove(s.conns, node);
    } else {
      assert s.conns - {node} == s.conns;
    }
  }

  lemma StepKeepsAccounted(s: State, st: Step)
    requires Accounted(s) && CanStep(s, st)
    ensures Accounted(After(s, st))
  {
    match st {
      case DoInsert(conn) => InsertKeepsAccounted(s, conn);
      case DoRemove(node) => RemoveKeepsAccounted(s, node);
      case _ =>
    }
  }

  // ----- One client per node -----

  /** `e` ends the life of the client of `node`. */
  predicate Ends(e: Entry, node: NodeId) {
    e == Removed(node) || e == Closed
  }

  ghost predicate NoneEnds(log: seq<Entry>, lo: nat, hi: nat, node: NodeId) {
    forall k :: lo <= k < hi <= |log| ==> !Ends(log[k], node)
  }

  /** The last client returned for a node is still the pool's, unless removed since. */
  ghost predicate LogShows(s: State) {
    forall i :: 0 <= i < |s.log| && s.log[i].Got? && NoneEnds(s.log, i, |s.log|, s.log[i].node) ==>
      s.log[i].node in s.clients && s.clients[s.log[i].node] == s.log[i].client
  }

  /** Both calls got a client for one node, which neither Remove nor Close ended between. */
  ghost predicate BothGot(log: seq<Entry>, i: nat, j: nat)
    requires i < j < |log|
  {
    log[i].Got? && log[j].Got? && log[i].node == log[j].node && NoneEnds(log, i, j, log[i].node)
  }

  ghost predicate OneClient(log: seq<Entry>) {
    forall i, j :: 0 <= i < j < |log| && BothGot(log, i, j) ==> log[i].client == log[j].client
  }

  lemma NoneEndsBefore(log: seq<Entry>, e: Entry, i: nat, node: NodeId)
    requires i <= |log| && NoneEnds(log + [e], i, |log| + 1, node)
    ensures NoneEnds(log, i, |log|, node) && !Ends(e, node)
  {
    forall k | i <= k < |log| ensures !Ends(log[k], node) {
      assert (log + [e])[k] == log[k];
    }
    assert (log + [e])[|log|] == e;
  }

  /** One entry is added to the log: a client that is in the pool afterwards, or the end
      of everything that leaves it. */
  lemma LogStep(s: State, s': State, e: Entry)
    requires LogShows(s) && OneClient(s.log) && s'.log == s.log + [e]
    requires e.Got? ==> e.node in s'.clients && s'.clients[e.node] == e.client
    requires forall n :: n in s.clients && !Ends(e, n) ==> n in s'.clients && s'.clients[n] == s.clients[n]
    ensures LogShows(s') && OneClient(s'.log)
  {
    forall i | 0 <= i < |s.log| && s.log[i].Got? && NoneEnds(s'.log, i, |s'.log|, s.log[i].node)
      ensures s.log[i].node in s'.clients && s'.clients[s.log[i].node] == s.log[i].client
    {
      NoneEndsBefore(s.log, e, i, s.log[i].node);
    }
    forall i, j | 0 <= i < j < |s'.log| && BothGot(s'.log, i, j)
      ensures s'.log[i].client == s'.log[j].client
    {
      forall k | i <= k < j ensures !Ends(s.log[k], s.log[i].node) { assert s'.log[k] == s.log[k]; }
      if j < |s.log| {
        assert BothGot(s.log, i, j);
      } else {
        assert NoneEnds(s.log, i, |s.log|, s.log[i].node);
        assert s.clients[e.node] == s.log[i].client;
      }
    }
  }

  ghost predicate Sound(s: State) {
    Accounted(s) && LogShows(s) && OneClient(s.log)
  }

  lemma StepKeepsSound(s: State, st: Step)
    requires Sound(s) && CanStep(s, st)
    ensures Sound(After(s, st))
  {
    StepKeepsAccounted(s, st);
    var s' := After(s, st);
    if |s'.log| > |s.log| {
      LogStep(s, s', s'.log[|s.log|]);
    }
  }

  lemma {:induction false} StepsKeepSound(s: State, sts: seq<Step>)
    requires Sound(s) && CanSteps(s, sts)
    ensures Sound(Steps(s, sts))
    decreases |sts|
  {
    if sts != [] {
      StepKeepsSound(s, sts[0]);
      StepsKeepSound(After(s, sts[0]), sts[1..]);
    }
  }

  /** Main result, for every interleaving: the open connections are the pooled ones plus
      those between dial and insert-or-close; two callers that got a client for the same node, with
      no Remove of it and no Close between them, got the same one; and that client's
      connection stays open until such a Remove or Close. */
  lemma PoolIsExact(sts: seq<Step>, i: nat, j: nat)
    requires CanSteps(FRESH, sts)
    ensures var s := Steps(FRESH, sts);
            && s.clients.Keys == s.conns.Keys && |s.open| == |s.conns| + |s.held| + |s.closing|
            && (i < j < |s.log| && BothGot(s.log, i, j) ==> s.log[i].client == s.log[j].client)
            && (i < |s.log| && s.log[i].Got? && NoneEnds(s.log, i, |s.log|, s.log[i].node) ==>
                  s.log[i].client.conn in s.open)
  {
    StepsKeepSound(FRESH, sts);
    OpenIsPooledPlusHeld(Steps(FRESH, sts));
  }

  /** Close leaves exactly the connections of callers open: a caller that is past its dial puts
      one of them into the closed pool afterwards. */
  lemma CloseLeavesHeldOpen(s: State, conn: ConnId)
    requires Accounted(s)
    ensures Close(s).open == s.held.Keys + s.closing
    ensures conn in s.held ==> var late := Insert(Close(s), conn);
                               late.conns == map[s.held[conn] := conn] && conn in late.open
  {
  }

  /** GetOrCreate when no other call overlaps it. */
  function GetOrCreateAlone(s: State, node: NodeId, ok: bool): State {
    if node in s.clients then Lookup(s, node)
    else if !ok then Dial(Lookup(s, node), node, false)
    else Insert(Dial(Lookup(s, node), node, true), s.next)
  }

  /** An existing client costs no connection, a missing one exactly one. */
  lemma AloneDialsOnlyOnMiss(s: State, node: NodeId, ok: bool)
    requires Accounted(s)
    ensures var s' := GetOrCreateAlone(s, node, ok);
            if node in s.clients || !ok then s'.open == s.open && s'.clients == s.clients && s'.conns == s.conns
            else s'.open == s.open + {s.next} && s.next !in s.open && s'.clients == s.clients[node := Client(s.next)]
                 && s'.conns == s.conns[node := s.next]
    ensures s.held == GetOrCreateAlone(s, node, ok).held && s.dialing == GetOrCreateAlone(s, node, ok).dialing
  {
  }

  // ----- The pool object -----

  class Pool {
    var clients: map<NodeId, Client>
    var conns: map<NodeId, ConnId>
    /** The transport: which connections are open, and the next one to be dialled. */
    var open: set<ConnId>
    var next: ConnId
    ghost var dialing: multiset<NodeId>
    ghost var held: map<ConnId, NodeId>
    ghost var closing: set<ConnId>
    ghost var log: seq<Entry>

    ghost function View(): State
      reads this
    {
      State(clients, conns, open, dialing, held, closing, next, log)
    }

    constructor ()
      ensures View() == FRESH
    {
      clients, conns, open, next := map[], map[], {}, 0;
      dialing, held, closing, log := multiset{}, map[], {}, [];
    }

    /** The part of GetOrCreate under the read lock; None means: dial. */
    method TryGet(node: NodeId) returns (r: Option<Client>)
      modifies this`log, this`dialing
      ensures View() == Lookup(old(View()), node)
      ensures r == if node in clients then Some(clients[node]) else None
    {
      if node in clients {
        r := Some(clients[node]);
        log := log + [Got(node, clients[node])];
      } else {
        r := None;
        dialing := dialing + multiset{node};
      }
    }

    method DialContext(node: NodeId, ok: bool) returns (conn: Option<ConnId>)
      modifies this
      ensures View() == Dial(old(View()), node, ok)
      ensures conn == if ok then Some(old(next)) else None
    {
      dialing := dialing - multiset{node};
      if !ok { return None; }
      var c := next;
      var nowOpen := open + {c};
      ghost var nowHeld := held[c := node];
      open, held, next := nowOpen, nowHeld, c + 1;
      conn := Some(c);
    }

    /** The part of GetOrCreate under the write lock; `redundant` says that the dialled
        connection is not needed. */
    method InsertOrKeep(node: NodeId, conn: ConnId) returns (c: Client, redundant: bool)
      requires conn in held && held[conn] == node
      modifies this`clients, this`conns, this`held, this`closing, this`log
      ensures View() == Insert(old(View()), conn)
      ensures node in clients && c == clients[node] && (redundant <==> node in old(clients))
    {
      held := held - {conn};
      redundant := node in clients;
      if redundant {
        closing := closing + {conn};
        c := clients[node];
      } else {
        clients, conns := clients[node := Client(conn)], conns[node := conn];
        c := Client(conn);
      }
      log := log + [Got(node, c)];
    }

    method CloseConn(conn: ConnId)
      requires conn in closing
      modifies this`open, this`closing
      ensures View() == CloseRedundant(old(View()), conn)
    {
      open, closing := open - {conn}, closing - {conn};
    }

    /** A call that no other call overlaps. */
    method GetOrCreate(node: NodeId, ok: bool) returns (r: Result<Client>)
      modifies this
      ensures View() == GetOrCreateAlone(old(View()), node, ok)
      ensures r == if node in clients then Ok(clients[node]) else Err
      ensures node in old(clients) || !ok ==> clients == old(clients) && conns == old(conns) && open == old(open)
      ensures node !in old(clients) && ok ==>
                && clients == old(clients)[node := Client(old(next))] && conns == old(conns)[node := old(next)]
                && open == old(open) + {old(next)}
    {
      var hit := TryGet(node);
      if hit.Some? { return Ok(hit.value); }
      var conn := DialContext(node, ok);
      if conn.None? { return Err; }
      // Nobody has inserted a client meanwhile, so the connection is not redundant.
      var c, _ := InsertOrKeep(node, conn.value);
      r := Ok(c);
    }

    method RemoveNode(node: NodeId)
      modifies this`clients, this`conns, this`open, this`log
      ensures View() == Remove(old(View()), node)
      ensures clients == old(clients) - {node} && conns == old(conns) - {node}
      ensures open == old(open) - (if node in old(conns) then {old(conns)[node]} else {})
    {
      if node in conns {
        open := open - {conns[node]};
        conns := conns - {node};
      }
      assert conns == old(conns) - {node};
      clients := clients - {node};
      log := log + [Removed(node)];
    }

    method CloseAll()
      modifies this`clients, this`conns, this`open, this`log
      ensures View() == Close(old(View()))
      ensures clients == map[] && conns == map[] && open == old(open) - old(conns).Values
    {
      var rest := conns.Keys;
      while rest != {}
        invariant rest <= conns.Keys && conns == old(conns) && clients == old(clients)
        invariant open == old(open) - set n | n in conns.Keys - rest :: conns[n]
        invariant log == old(log)
        decreases |rest|
      {
        var n :| n in rest;
        rest := rest - {n};
        open := open - {conns[n]};
      }
      assert conns.Values == set n | n in conns.Keys - rest :: conns[n];
      conns, clients := map[], map[];
      log := log + [Closed];
    }

    method Len() returns (n: nat)
      requires Accounted(View())
      ensures n + |held| + |closing| == |open|
    {
      OpenIsPooledPlusHeld(View());
      assert |clients.Keys| == |conns.Keys|;
      n := |clients|;
    }
  }
}
