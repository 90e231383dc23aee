/** A session of several processes running the handlers of Game/Networking/Network.cs:
    the server is created, then clients join one after another, and after each join
    every message in flight is delivered, first in first out. The conclusion is what
    the comments at Network.cs:87, 95, 104 and 158 describe: after each join every
    process knows every process. */
module Session {
  import opened PlayerRecord
  import opened Registration

  /** A message in flight; `sender` is what `GetRpcSenderId` reports at the target. */
  datatype Envelope = Envelope(sender: int32, target: int32, payload: Payload)

  /** Every process of the session by its peer id, and the messages in flight. */
  datatype World = World(nodes: map<int32, Node>, queue: seq<Envelope>)

  /** The transport's view of what process `sender` sent. */
  function Envelopes(sender: int32, msgs: seq<Message>): seq<Envelope>
  {
    if msgs == [] then []
    else [Envelope(sender, msgs[0].target, msgs[0].payload)] + Envelopes(sender, msgs[1..])
  }

  /** `enum` gives, for every key set, the order in which `Players.Keys` visits it. */
  ghost predicate Enumerates(enum: set<int32> -> seq<int32>)
  {
    forall keys :: IsEnumeration(enum(keys), keys)
  }

  /** Delivers the message at the front of the queue: the target's handler runs with
      the transport's sender id, and what it sends joins the back of the queue.
      A message to an id with no process is lost. */
  function Deliver(w: World, enum: set<int32> -> seq<int32>): World
    requires w.queue != [] && Enumerates(enum)
  {
    var e := w.queue[0];
    if e.target !in w.nodes then w.(queue := w.queue[1..])
    else
      var n := w.nodes[e.target];
      var r := Handle(n, e.sender, e.payload, enum(n.players.Keys));
      World(w.nodes[e.target := r.node.(outbox := [])], w.queue[1..] + Envelopes(e.target, r.node.outbox))
  }

  /** Delivers messages until none is in flight, at most `fuel` of them. */
  function Settle(w: World, enum: set<int32> -> seq<int32>, fuel: nat): World
    requires Enumerates(enum)
    decreases fuel, 2
  {
    if fuel == 0 then w else SettleQueue(w, enum, fuel)
  }

  /** `Settle` with fuel left: stops once nothing is in flight. */
  function SettleQueue(w: World, enum: set<int32> -> seq<int32>, fuel: nat): World
    requires Enumerates(enum) && fuel > 0
    decreases fuel, 1
  {
    if w.queue == [] then w else DeliverThenSettle(w, enum, fuel)
  }

  /** `Settle` with fuel left and a message in flight: delivers it, then goes on. */
  function DeliverThenSettle(w: World, enum: set<int32> -> seq<int32>, fuel: nat): World
    requires Enumerates(enum) && fuel > 0 && w.queue != []
    decreases fuel, 0
  {
    Settle(Deliver(w, enum), enum, fuel - 1)
  }

  /** The server process after a successful `CreateServer`. */
  function Start(): World
  {
    var r := ServerCreated(Node(Server, map[], []));
    World(map[SERVER_ID := r.node], [])
  }

  /** Process `id` has dialled in and the transport reports it connected: its
      `JoinSuccess` handler runs on its empty registry and its request is queued. */
  function Join(w: World, id: int32): World
  {
    var r := JoinSuccess(Node(Client, map[], []), id, id);
    World(w.nodes[id := r.node.(outbox := [])], w.queue + Envelopes(id, r.node.outbox))
  }

  /** The session in which `clients` join in turn; after each join, up to two
      deliveries per process then in the session. */
  function Run(clients: seq<int32>, enum: set<int32> -> seq<int32>): World
    requires Enumerates(enum)
    decreases |clients|
  {
    if clients == [] then Start()
    else Settle(Join(Run(clients[..|clients| - 1], enum), clients[|clients| - 1]), enum, 2 * |clients| + 1)
  }

  /** The peer ids of the session in which `clients` joined. */
  ghost function Ids(clients: seq<int32>): set<int32>
  {
    {SERVER_ID} + set c | c in clients
  }

  /** The record the server holds under key `k`. */
  function CanonicalRecord(k: int32): (p: Player)
    ensures p.networkId == k
  {
    if k == SERVER_ID then SERVER_PLAYER else CLIENT_PLAYER.(networkId := k)
  }

  /** The server's registry once the ids `ids` are registered. */
  function Canonical(ids: set<int32>): Registry
  {
    map k | k in ids :: CanonicalRecord(k)
  }

  /** Client `j`'s registry once the ids `ids` are registered: the server's, except
      for its own entry, which keeps the unstamped record it added itself. */
  function ClientView(ids: set<int32>, j: int32): Registry
  {
    Canonical(ids)[j := CLIENT_PLAYER]
  }

  function ServerNode(ids: set<int32>): Node
  {
    Node(Server, Canonical(ids), [])
  }

  function ClientNode(ids: set<int32>, j: int32): Node
  {
    Node(Client, ClientView(ids, j), [])
  }

  /** Process `j` of a settled session whose ids are `ids`. */
  function SettledNode(ids: set<int32>, j: int32): Node
  {
    if j == SERVER_ID then ServerNode(ids) else ClientNode(ids, j)
  }

  /** Nothing in flight, the processes are those of `ids`, and each holds the
      registry above. */
  ghost predicate Settled(w: World, ids: set<int32>)
  {
    SERVER_ID in ids && w.queue == [] && w.nodes.Keys == ids &&
    forall j :: j in w.nodes ==> w.nodes[j] == SettledNode(ids, j)
  }

  /** Process `j` while newcomer `c` is handed the server's fan-out, once the keys
      in `done` have been handled: the server and the clients in `done` already hold
      `c`, and `c` holds the records of `done`. */
  function DrainingNode(ids: set<int32>, c: int32, done: set<int32>, j: int32): Node
  {
    if j == SERVER_ID then ServerNode(ids + {c})
    else if j == c then ClientNode(done + {c}, c)
    else ClientNode(if j in done then ids + {c} else ids, j)
  }

  function DrainingNodes(ids: set<int32>, c: int32, done: set<int32>): map<int32, Node>
  {
    map j | j in ids + {c} :: DrainingNode(ids, c, done, j)
  }

  /** What the server's loop sent for the keys of `rest`. */
  function DrainQueue(ids: set<int32>, c: int32, rest: seq<int32>): seq<Envelope>
    requires forall k :: k in rest ==> k in ids
  {
    Envelopes(SERVER_ID, FanOut(rest, Canonical(ids), c, Encode(CanonicalRecord(c))))
  }

  /** The bookkeeping of the drain: `done` and `rest` split the keys `ids` of the
      session the newcomer `c` joins. */
  ghost predicate DrainSplit(ids: set<int32>, c: int32, done: set<int32>, rest: seq<int32>)
  {
    SERVER_ID in ids && c !in ids && done <= ids && NoDuplicates(rest) &&
    (forall k :: k in rest ==> k in ids && k !in done) &&
    (forall k :: k in ids ==> k in done || k in rest)
  }

  /** The session while the fan-out for the keys of `rest` is in flight. */
  ghost predicate Draining(w: World, ids: set<int32>, c: int32, done: set<int32>, rest: seq<int32>)
  {
    DrainSplit(ids, c, done, rest) && w.nodes.Keys == ids + {c} &&
    (forall j :: j in w.nodes ==> w.nodes[j] == DrainingNode(ids, c, done, j)) &&
    w.queue == DrainQueue(ids, c, rest)
  }

  lemma {:induction false} EnvelopesAppend(sender: int32, a: seq<Message>, b: seq<Message>)
    ensures Envelopes(sender, a + b) == Envelopes(sender, a) + Envelopes(sender, b)
    decreases |a|
  {
    if a == [] {
      assert a + b == b;
    } else {
      var head := [Envelope(sender, a[0].target, a[0].payload)];
      assert (a + b)[0] == a[0];
      assert (a + b)[1..] == a[1..] + b;
      assert Envelopes(sender, a + b) == head + Envelopes(sender, a[1..] + b);
      EnvelopesAppend(sender, a[1..], b);
      assert head + (Envelopes(sender, a[1..]) + Envelopes(sender, b)) == (head + Envelopes(sender, a[1..])) + Envelopes(sender, b);
    }
  }

  lemma CanonicalAdd(ids: set<int32>, k: int32)
    ensures Canonical(ids)[k := CanonicalRecord(k)] == Canonical(ids + {k})
  {
  }

  lemma ClientViewAdd(ids: set<int32>, j: int32, k: int32)
    requires k != j
    ensures ClientView(ids, j)[k := CanonicalRecord(k)] == ClientView(ids + {k}, j)
  {
    CanonicalAdd(ids, k);
    assert ClientView(ids, j)[k := CanonicalRecord(k)] == Canonical(ids)[k := CanonicalRecord(k)][j := CLIENT_PLAYER];
  }

  /** A client handed the server's message about `p`, whose id it does not hold yet,
      adds `p` under that id and sends nothing. */
  lemma DeliverToClient(w: World, enum: set<int32> -> seq<int32>, p: Player)
    requires Enumerates(enum)
    requires w.queue != [] && w.queue[0].sender == SERVER_ID && w.queue[0].payload == Encode(p)
    requires w.queue[0].target in w.nodes
    requires w.nodes[w.queue[0].target].role == Client && w.nodes[w.queue[0].target].outbox == []
    requires p.networkId !in w.nodes[w.queue[0].target].players
    ensures var t := w.queue[0].target;
      var n := w.nodes[t];
      Deliver(w, enum) == World(w.nodes[t := n.(players := n.players[p.networkId := p])], w.queue[1..])
  {
    DecodeEncode(p);
    assert w.queue[1..] + [] == w.queue[1..];
  }

  /** The server handed newcomer `c`'s request registers `c` and queues its fan-out. */
  lemma DeliverToServer(w: World, enum: set<int32> -> seq<int32>, ids: set<int32>, c: int32)
    requires Enumerates(enum) && SERVER_ID in ids && c !in ids
    requires w.queue == [Envelope(c, SERVER_ID, Encode(CLIENT_PLAYER))]
    requires SERVER_ID in w.nodes && w.nodes[SERVER_ID] == ServerNode(ids)
    ensures Canonical(ids).Keys == ids
    ensures Deliver(w, enum) == World(w.nodes[SERVER_ID := ServerNode(ids + {c})], DrainQueue(ids, c, enum(ids)))
  {
    assert Canonical(ids).Keys == ids;
    var n := w.nodes[SERVER_ID];
    var order := enum(ids);
    var announced := Encode(CanonicalRecord(c));
    var fan := FanOut(order, Canonical(ids), c, announced);
    DecodeEncode(CLIENT_PLAYER);
    assert CLIENT_PLAYER.(networkId := c) == CanonicalRecord(c);
    CanonicalAdd(ids, c);
    var r := Handle(n, c, Encode(CLIENT_PLAYER), order);
    assert r.node == Node(Server, Canonical(ids + {c}), [] + fan);
    assert [] + fan == fan;
    assert w.queue[1..] + Envelopes(SERVER_ID, fan) == Envelopes(SERVER_ID, fan);
  }

  /** Handling key `k` updates the target `k` (unless it is the server) and the
      newcomer `c`. */
  lemma DrainingAdvance(ids: set<int32>, c: int32, done: set<int32>, k: int32)
    requires SERVER_ID in ids && c !in ids && k in ids && k !in done && done <= ids
    ensures var nodes := DrainingNodes(ids, c, done);
      var atC := ClientNode(done + {k} + {c}, c);
      (k == SERVER_ID ==> nodes[c := atC] == DrainingNodes(ids, c, done + {k})) &&
      (k != SERVER_ID ==> nodes[k := ClientNode(ids + {c}, k)][c := atC] == DrainingNodes(ids, c, done + {k}))
  {
  }

  lemma DrainSplitTail(ids: set<int32>, c: int32, done: set<int32>, rest: seq<int32>)
    requires rest != [] && DrainSplit(ids, c, done, rest)
    ensures DrainSplit(ids, c, done + {rest[0]}, rest[1..])
  {
    NoDuplicatesTail(rest);
  }

  /** Delivering the one or two messages of the next key's iteration moves that key
      from `rest` to `done`. */
  lemma DrainStep(w: World, enum: set<int32> -> seq<int32>, ids: set<int32>, c: int32,
                  done: set<int32>, rest: seq<int32>) returns (w2: World, steps: nat)
    requires Enumerates(enum) && Draining(w, ids, c, done, rest) && rest != []
    ensures Draining(w2, ids, c, done + {rest[0]}, rest[1..])
    ensures w.queue != [] && 1 <= steps <= 2
    ensures steps == 1 ==> Deliver(w, enum) == w2
    ensures steps == 2 ==> Deliver(w, enum).queue != [] && Deliver(Deliver(w, enum), enum) == w2
  {
    var announced := Encode(CanonicalRecord(c));
    var k := rest[0];
    var tail := rest[1..];
    assert k in rest;
    DrainSplitTail(ids, c, done, rest);
    assert w.nodes == DrainingNodes(ids, c, done);
    EnvelopesAppend(SERVER_ID, FanOutStep(k, Canonical(ids), c, announced), FanOut(tail, Canonical(ids), c, announced));
    var toNewcomer := [Envelope(SERVER_ID, c, Encode(CanonicalRecord(k)))];
    var later := DrainQueue(ids, c, tail);
    var atC := ClientNode(done + {k} + {c}, c);
    ClientViewAdd(done + {c}, c, k);
    assert done + {c} + {k} == done + {k} + {c};
    DrainingAdvance(ids, c, done, k);
    var nodes2;
    if k != SERVER_ID {
      assert w.queue == [Envelope(SERVER_ID, k, announced)] + toNewcomer + later;
      DeliverToClient(w, enum, CanonicalRecord(c));
      ClientViewAdd(ids, k, c);
      var w1 := Deliver(w, enum);
      assert w1 == World(w.nodes[k := ClientNode(ids + {c}, k)], toNewcomer + later);
      DeliverToClient(w1, enum, CanonicalRecord(k));
      nodes2 := w1.nodes[c := atC];
      w2, steps := World(nodes2, later), 2;
    } else {
      assert w.queue == toNewcomer + later;
      DeliverToClient(w, enum, CanonicalRecord(k));
      nodes2 := w.nodes[c := atC];
      w2, steps := World(nodes2, later), 1;
    }
    assert nodes2 == DrainingNodes(ids, c, done + {k});
  }

  /** One or two deliveries taken out of the front of `Settle`. */
  lemma SettleAlong(w: World, w2: World, enum: set<int32> -> seq<int32>, fuel: nat, steps: nat)
    requires Enumerates(enum) && w.queue != [] && 1 <= steps <= 2 && fuel >= steps
    requires steps == 1 ==> Deliver(w, enum) == w2
    requires steps == 2 ==> Deliver(w, enum).queue != [] && Deliver(Deliver(w, enum), enum) == w2
    ensures Settle(w, enum, fuel) == Settle(w2, enum, fuel - steps)
  {
    SettleOne(w, enum, fuel);
    if steps == 2 {
      SettleOne(Deliver(w, enum), enum, fuel - 1);
    }
  }

  lemma SettleOne(w: World, enum: set<int32> -> seq<int32>, fuel: nat)
    requires Enumerates(enum) && w.queue != [] && fuel > 0
    ensures Settle(w, enum, fuel) == Settle(Deliver(w, enum), enum, fuel - 1)
  {
    assert Settle(w, enum, fuel) == SettleQueue(w, enum, fuel);
    assert SettleQueue(w, enum, fuel) == DeliverThenSettle(w, enum, fuel);
  }

  /** Settling a session with nothing in flight leaves it as it is. */
  lemma SettleEmpty(w: World, enum: set<int32> -> seq<int32>, fuel: nat)
    requires Enumerates(enum) && w.queue == []
    ensures Settle(w, enum, fuel) == w
  {
    if fuel > 0 {
      assert Settle(w, enum, fuel) == SettleQueue(w, enum, fuel);
    }
  }

  /** `DrainStep`, stated about `Settle`. */
  lemma DrainNext(w: World, enum: set<int32> -> seq<int32>, ids: set<int32>, c: int32,
                  done: set<int32>, rest: seq<int32>, fuel: nat) returns (w2: World, steps: nat)
    requires Enumerates(enum) && Draining(w, ids, c, done, rest) && rest != [] && fuel >= 2 * |rest|
    ensures Draining(w2, ids, c, done + {rest[0]}, rest[1..])
    ensures fuel >= steps && fuel - steps >= 2 * |rest[1..]|
    ensures Settle(w, enum, fuel) == Settle(w2, enum, fuel - steps)
  {
    w2, steps := DrainStep(w, enum, ids, c, done, rest);
    SettleAlong(w, w2, enum, fuel, steps);
  }

  /** Once every key is handled, the session is settled with `c` registered. */
  lemma DrainDone(w: World, ids: set<int32>, c: int32, done: set<int32>)
    requires Draining(w, ids, c, done, [])
    ensures Settled(w, ids + {c})
  {
    assert done == ids;
    assert w.queue == [];
  }

  /** Settling the fan-out in flight for the keys of `rest` ends in the settled
      session with the newcomer `c` registered. */
  lemma {:induction false} DrainFanOut(w: World, enum: set<int32> -> seq<int32>, ids: set<int32>, c: int32,
                                       done: set<int32>, rest: seq<int32>, fuel: nat)
    requires Enumerates(enum) && Draining(w, ids, c, done, rest) && fuel >= 2 * |rest|
    ensures Settled(Settle(w, enum, fuel), ids + {c})
    decreases |rest|
  {
    if rest == [] {
      DrainDone(w, ids, c, done);
      SettleEmpty(w, enum, fuel);
    } else {
      var w2, steps := DrainNext(w, enum, ids, c, done, rest, fuel);
      DrainFanOut(w2, enum, ids, c, done + {rest[0]}, rest[1..], fuel - steps);
    }
  }

  /** The newcomer's process holds only its own unstamped record, and its
      request to the server joins the back of the queue. */
  lemma JoinShape(w: World, c: int32)
    ensures Join(w, c) == World(w.nodes[c := ClientNode({c}, c)], w.queue + [Envelope(c, SERVER_ID, Encode(CLIENT_PLAYER))])
  {
    assert Canonical({c})[c := CLIENT_PLAYER] == map[c := CLIENT_PLAYER];
    var msgs := [Message(SERVER_ID, Encode(CLIENT_PLAYER))];
    assert msgs[1..] == [];
    assert JoinSuccess(Node(Client, map[], []), c, c).node.outbox == msgs;
    assert Envelopes(c, msgs) == [Envelope(c, SERVER_ID, Encode(CLIENT_PLAYER))];
  }

  /** If settling what the first delivery leaves ends settled, so does settling
      the session before it, with one more unit of fuel. */
  lemma SettledFront(w: World, enum: set<int32> -> seq<int32>, fuel: nat, ids: set<int32>)
    requires Enumerates(enum) && w.queue != [] && fuel > 0
    requires Settled(Settle(Deliver(w, enum), enum, fuel - 1), ids)
    ensures Settled(Settle(w, enum, fuel), ids)
  {
    SettleOne(w, enum, fuel);
  }

  /** The processes of a settled session, with the newcomer `c` holding its own
      record and the server holding `c`'s, are those of the drain's start. */
  lemma JoinedDraining(w: World, enum: set<int32> -> seq<int32>, ids: set<int32>, c: int32)
    requires Enumerates(enum) && Settled(w, ids) && c !in ids
    ensures Draining(World(w.nodes[c := ClientNode({c}, c)][SERVER_ID := ServerNode(ids + {c})], DrainQueue(ids, c, enum(ids))),
                     ids, c, {}, enum(ids))
  {
    DrainSplitStart(enum, ids, c);
    var nodes := w.nodes[c := ClientNode({c}, c)][SERVER_ID := ServerNode(ids + {c})];
    assert nodes.Keys == ids + {c};
    forall j | j in nodes
      ensures nodes[j] == DrainingNode(ids, c, {}, j)
    {
      if j == c {
        assert {} + {c} == {c};
      } else if j != SERVER_ID {
        assert nodes[j] == w.nodes[j] == SettledNode(ids, j);
      }
    }
  }

  /** The drain starts with no key handled and every key of the enumeration to go. */
  lemma DrainSplitStart(enum: set<int32> -> seq<int32>, ids: set<int32>, c: int32)
    requires Enumerates(enum) && SERVER_ID in ids && c !in ids
    ensures DrainSplit(ids, c, {}, enum(ids))
  {
    assert IsEnumeration(enum(ids), ids);
  }

  /** In a settled session, the newcomer's request reaches the server, which
      registers it and queues the fan-out over its keys. */
  lemma JoinReachesServer(w: World, enum: set<int32> -> seq<int32>, ids: set<int32>, c: int32)
    requires Enumerates(enum) && Settled(w, ids) && c !in ids
    ensures Join(w, c).queue != []
    ensures Draining(Deliver(Join(w, c), enum), ids, c, {}, enum(ids))
  {
    JoinShape(w, c);
    var w1 := Join(w, c);
    assert w1.queue == [Envelope(c, SERVER_ID, Encode(CLIENT_PLAYER))];
    DeliverToServer(w1, enum, ids, c);
    JoinedDraining(w, enum, ids, c);
  }

  /** The fan-out the newcomer's request causes settles with `c` registered. */
  lemma JoinDrains(w: World, enum: set<int32> -> seq<int32>, ids: set<int32>, c: int32, fuel: nat)
    requires Enumerates(enum) && Settled(w, ids) && c !in ids && fuel >= 2 * |ids|
    ensures Join(w, c).queue != []
    ensures Settled(Settle(Deliver(Join(w, c), enum), enum, fuel), ids + {c})
  {
    JoinReachesServer(w, enum, ids, c);
    EnumerationLength(enum(ids), ids);
    DrainFanOut(Deliver(Join(w, c), enum), enum, ids, c, {}, enum(ids), fuel);
  }

  /** A join into a settled session, with two deliveries per process then in the
      session and one more, leaves it settled with the newcomer registered everywhere. */
  lemma JoinSettles(w: World, enum: set<int32> -> seq<int32>, ids: set<int32>, c: int32, fuel: nat)
    requires Enumerates(enum) && Settled(w, ids) && c !in ids && fuel >= 2 * |ids| + 1
    ensures Settled(Settle(Join(w, c), enum, fuel), ids + {c})
  {
    var f := fuel - 1;
    JoinDrains(w, enum, ids, c, f);
    SettledFront(Join(w, c), enum, fuel, ids + {c});
  }

  lemma StartSettled()
    ensures Settled(Start(), {SERVER_ID})
  {
    assert Canonical({SERVER_ID}) == map[SERVER_ID := SERVER_PLAYER];
  }

  /** Splitting off the last client to join. */
  lemma LastJoiner(clients: seq<int32>)
    requires clients != [] && NoDuplicates(clients) && SERVER_ID !in clients
    ensures var prefix := clients[..|clients| - 1];
      var c := clients[|clients| - 1];
      NoDuplicates(prefix) && SERVER_ID !in prefix && c !in Ids(prefix) && Ids(clients) == Ids(prefix) + {c}
  {
    var prefix := clients[..|clients| - 1];
    var c := clients[|clients| - 1];
    assert clients == prefix + [c];
    assert forall j :: j in prefix ==> j in clients;
    forall j | j in prefix ensures j != c {
      var i :| 0 <= i < |prefix| && prefix[i] == j;
      assert clients[i] == j;
    }
  }

  /** The session's ids are the server's and one per client. */
  lemma {:induction false} IdsCount(clients: seq<int32>)
    requires NoDuplicates(clients) && SERVER_ID !in clients
    ensures |Ids(clients)| == |clients| + 1
    decreases |clients|
  {
    if clients == [] {
      assert Ids(clients) == {SERVER_ID};
    } else {
      LastJoiner(clients);
      IdsCount(clients[..|clients| - 1]);
    }
  }

  /** Every state the session passes through between joins is settled. */
  lemma {:induction false} RunSettled(clients: seq<int32>, enum: set<int32> -> seq<int32>)
    requires Enumerates(enum) && NoDuplicates(clients) && SERVER_ID !in clients
    ensures Settled(Run(clients, enum), Ids(clients))
    decreases |clients|
  {
    if clients == [] {
      assert Ids(clients) == {SERVER_ID};
      StartSettled();
    } else {
      var prefix := clients[..|clients| - 1];
      var c := clients[|clients| - 1];
      LastJoiner(clients);
      RunSettled(prefix, enum);
      IdsCount(prefix);
      JoinSettles(Run(prefix, enum), enum, Ids(prefix), c, 2 * |clients| + 1);
    }
  }

  /** What every settled session looks like. */
  lemma SettledView(w: World, ids: set<int32>)
    requires Settled(w, ids)
    ensures w.queue == [] && w.nodes.Keys == ids && SERVER_ID in w.nodes
    ensures forall j :: j in w.nodes ==> w.nodes[j].players.Keys == ids
    ensures forall j, k :: j in w.nodes && k in w.nodes[j].players && k != j ==>
      w.nodes[j].players[k] == w.nodes[SERVER_ID].players[k]
    ensures Stamped(w.nodes[SERVER_ID].players)
    ensures forall j :: j in w.nodes && j != SERVER_ID ==>
      w.nodes[j].role == Client && j in w.nodes[j].players && w.nodes[j].players[j] == CLIENT_PLAYER &&
      j in w.nodes[SERVER_ID].players && w.nodes[SERVER_ID].players[j].networkId == j
  {
    forall j, k | j in w.nodes && k in w.nodes[j].players && k != j
      ensures w.nodes[j].players[k] == w.nodes[SERVER_ID].players[k]
    {
      assert w.nodes[SERVER_ID].players == Canonical(ids);
      if j != SERVER_ID {
        assert w.nodes[j].players == Canonical(ids)[j := CLIENT_PLAYER];
      }
    }
  }
  /** When every join has been handled, all processes hold the same key set (the
      server's id and every client's), nothing is in flight, and every entry agrees
      with the server's, except each client's entry for itself. */
  lemma SessionConverges(clients: seq<int32>, enum: set<int32> -> seq<int32>) returns (w: World)
    requires Enumerates(enum) && NoDuplicates(clients) && SERVER_ID !in clients
    ensures w == Run(clients, enum)
    ensures w.queue == [] && w.nodes.Keys == Ids(clients) && SERVER_ID in w.nodes
    ensures forall j :: j in w.nodes ==> w.nodes[j].players.Keys == Ids(clients)
    ensures forall j, k :: j in w.nodes && k in w.nodes[j].players && k != j ==>
      w.nodes[j].players[k] == w.nodes[SERVER_ID].players[k]
    ensures Stamped(w.nodes[SERVER_ID].players)
  {
    RunSettled(clients, enum);
    w := Run(clients, enum);
    SettledView(w, Ids(clients));
  }

  /** A client never learns the id the server gave it: its own entry keeps
      NetworkId 0, while every other process holds it stamped with its id. */
  lemma ClientSelfEntryUnstamped(clients: seq<int32>, enum: set<int32> -> seq<int32>, j: int32)
    requires Enumerates(enum) && NoDuplicates(clients) && SERVER_ID !in clients
    requires j in clients
    ensures var w := Run(clients, enum);
      j in w.nodes && SERVER_ID in w.nodes && j in w.nodes[j].players && j in w.nodes[SERVER_ID].players &&
      w.nodes[j].players[j] == CLIENT_PLAYER && w.nodes[j].players[j].networkId == 0 &&
      w.nodes[SERVER_ID].players[j].networkId == j
  {
    RunSettled(clients, enum);
    SettledView(Run(clients, enum), Ids(clients));
  }
}
