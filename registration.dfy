/** The registration protocol of Game/Networking/Network.cs as functions on a
    node's state: its role, its `Players` registry and the RPCs it has sent.
    Each handler is one atomic step. The unspecified enumeration order of
    `Players.Keys` (and of `Players.Values`) is a parameter: `order` is any
    enumeration of the keys, and every property below holds for every one. */
module Registration {
  import opened PlayerRecord

  /** The peer id Godot gives the server. */
  const SERVER_ID: int32 := 1

  /** Unbound: no network peer; Server: `IsNetworkServer()` holds; Client: a client peer. */
  datatype Role = Unbound | Server | Client

  /** One `RpcId(target, nameof(NetworkRegisterPlayer), payload)`. */
  datatype Message = Message(target: int32, payload: Payload)

  type Registry = map<int32, Player>

  datatype Node = Node(role: Role, players: Registry, outbox: seq<Message>)

  /** How a handler ended: the key it added, the `Add` that threw on a present key,
      the request the origin check ignored, or the cast that threw while decoding. */
  datatype Status = Registered(key: int32) | DuplicateKey(key: int32) | Dropped | DecodeFailed(error: DecodeError)

  datatype Reply = Reply(node: Node, status: Status)

  /** The record `_on_server_created` registers. */
  const SERVER_PLAYER := Player(Some("ServerPlayer"), SERVER_ID, DEFAULT_COLOR)

  /** The record `_on_join_success` registers: its NetworkId is left at 0. */
  const CLIENT_PLAYER := Player(Some("ClientPlayer"), 0, DEFAULT_COLOR)

  ghost predicate NoDuplicates(s: seq<int32>)
  {
    forall i, j :: 0 <= i < j < |s| ==> s[i] != s[j]
  }

  /** Splitting a duplicate-free sequence at its head: the head is not repeated in
      the tail, and the tail is duplicate-free. */
  lemma NoDuplicatesTail(s: seq<int32>)
    requires s != [] && NoDuplicates(s)
    ensures NoDuplicates(s[1..]) && s[0] !in s[1..]
    ensures forall j :: j in s <==> j == s[0] || j in s[1..]
  {
    assert s == [s[0]] + s[1..];
    forall j | j in s[1..] ensures j != s[0] {
      var i :| 0 <= i < |s[1..]| && s[1..][i] == j;
      assert s[i + 1] == j;
    }
  }

  /** `order` lists every key of `keys` exactly once. */
  ghost predicate IsEnumeration(order: seq<int32>, keys: set<int32>)
  {
    NoDuplicates(order) && forall k :: k in order <==> k in keys
  }

  /** One enumeration of a key set, showing that every key set has one. */
  ghost function EnumerationOf(keys: set<int32>): (order: seq<int32>)
    ensures IsEnumeration(order, keys)
    decreases keys
  {
    if keys == {} then []
    else
      var k :| k in keys;
      [k] + EnumerationOf(keys - {k})
  }

  /** Every record is stored under its own NetworkId. The server keeps this. */
  ghost predicate Stamped(players: Registry)
  {
    forall k :: k in players ==> players[k].networkId == k
  }

  /** `RegisterPlayer`: `Players.Add(key, p)`, which throws on a present key. */
  function Register(n: Node, key: int32, p: Player): Reply
  {
    if key in n.players then Reply(n, DuplicateKey(key))
    else Reply(n.(players := n.players[key := p]), Registered(key))
  }

  /** One iteration of the server's `foreach` over `Players.Keys`: tell `k` about the
      newcomer unless `k` is the server, then tell the newcomer about `k`. */
  function FanOutStep(k: int32, players: Registry, caller: int32, announced: Payload): seq<Message>
    requires k in players
  {
    (if k != SERVER_ID then [Message(k, announced)] else []) + [Message(caller, Encode(players[k]))]
  }

  /** The whole `foreach`, keys taken in `order`. */
  function FanOut(order: seq<int32>, players: Registry, caller: int32, announced: Payload): seq<Message>
    requires forall k :: k in order ==> k in players
  {
    if order == [] then []
    else FanOutStep(order[0], players, caller, announced) + FanOut(order[1..], players, caller, announced)
  }

  /** `NetworkRegisterPlayer` called by peer `sender` with `payload`. The payload is
      decoded first; a client ignores any caller but the server; the server stamps
      the caller's id into the record and fans out before inserting; everyone
      inserts under the record's NetworkId. */
  function Handle(n: Node, sender: int32, payload: Payload, order: seq<int32>): Reply
    requires IsEnumeration(order, n.players.Keys)
  {
    match Decode(payload)
    case Failure(e) => Reply(n, DecodeFailed(e))
    case Success(p) =>
      if n.role != Server && sender != SERVER_ID then Reply(n, Dropped)
      else if n.role == Server then
        var stamped := p.(networkId := sender);
        var sent := FanOut(order, n.players, sender, Encode(stamped));
        Register(n.(outbox := n.outbox + sent), stamped.networkId, stamped)
      else Register(n, p.networkId, p)
  }

  /** `_on_server_created`. */
  function ServerCreated(n: Node): Reply
  {
    Register(n, SERVER_ID, SERVER_PLAYER)
  }

  /** `_on_join_success` on the client whose unique id is `uniqueId`: `Players.Add`,
      then one request to the server carrying `Players.Values.First()`, the value
      under key `first` (the key the enumeration yields first). */
  function JoinSuccess(n: Node, uniqueId: int32, first: int32): Reply
    requires uniqueId !in n.players ==> first == uniqueId || first in n.players
  {
    if uniqueId in n.players then Reply(n, DuplicateKey(uniqueId))
    else
      var players := n.players[uniqueId := CLIENT_PLAYER];
      Reply(Node(n.role, players, n.outbox + [Message(SERVER_ID, Encode(players[first]))]), Registered(uniqueId))
  }

  /** `_on_connection_failed`: dropping the network peer only resets the role; the
      registry is kept. */
  function ConnectionFailed(n: Node): Node
  {
    n.(role := Unbound)
  }

  /** The payloads of `msgs` addressed to `t`, in order. */
  function SentTo(msgs: seq<Message>, t: int32): seq<Payload>
  {
    if msgs == [] then []
    else (if msgs[0].target == t then [msgs[0].payload] else []) + SentTo(msgs[1..], t)
  }

  // ---------------------------------------------------------------------------
  // The shared insert

  /** An insert adds exactly one new key and leaves every existing entry as it was;
      on a present key it fails and changes nothing. */
  lemma RegisterAddsOnly(n: Node, key: int32, p: Player)
    ensures var r := Register(n, key, p);
      r.node.role == n.role && r.node.outbox == n.outbox &&
      (r.status == Registered(key) <==> key !in n.players) &&
      (r.status == DuplicateKey(key) <==> key in n.players) &&
      (key !in n.players ==> r.node.players.Keys == n.players.Keys + {key} && r.node.players[key] == p) &&
      (forall k :: k in n.players ==> k in r.node.players && r.node.players[k] == n.players[k])
  {
  }

  /** Whatever the role, a request changes the registry exactly when it ends in
      `Registered(k)`, and then it only adds the fresh key `k`. */
  lemma HandleAddsOnly(n: Node, sender: int32, payload: Payload, order: seq<int32>)
    requires IsEnumeration(order, n.players.Keys)
    ensures var r := Handle(n, sender, payload, order);
      r.node.role == n.role &&
      (r.status.Registered? <==> r.node.players != n.players) &&
      (r.status.Registered? ==>
         r.status.key !in n.players &&
         r.node.players.Keys == n.players.Keys + {r.status.key} &&
         forall k :: k in n.players ==> r.node.players[k] == n.players[k])
  {
    var r := Handle(n, sender, payload, order);
    if r.status.Registered? {
      var k := r.status.key;
      assert k in r.node.players && k !in n.players;
    }
  }

  // ---------------------------------------------------------------------------
  // The client side

  /** On a client, a request from anyone but the server changes nothing: not the
      registry, not the outbox. */
  lemma ClientIgnoresForeignSender(n: Node, sender: int32, payload: Payload, order: seq<int32>)
    requires IsEnumeration(order, n.players.Keys)
    requires n.role != Server && sender != SERVER_ID
    ensures var r := Handle(n, sender, payload, order);
      r.node == n &&
      (r.status == Dropped <==> Decode(payload).Success?)
  {
  }

  /** A client handling a request from the server sends nothing and inserts the
      record under the NetworkId the payload carries. */
  lemma ClientAcceptsServer(n: Node, payload: Payload, order: seq<int32>)
    requires IsEnumeration(order, n.players.Keys)
    requires n.role != Server && Decode(payload).Success?
    ensures var p := Decode(payload).value;
      var r := Handle(n, SERVER_ID, payload, order);
      r.node.outbox == n.outbox &&
      (p.networkId !in n.players ==> r.status == Registered(p.networkId) && r.node.players == n.players[p.networkId := p]) &&
      (p.networkId in n.players ==> r.status == DuplicateKey(p.networkId) && r.node.players == n.players)
  {
  }

  // ---------------------------------------------------------------------------
  // The server side

  /** On the server, the caller's transport id, not the id in the payload, is the
      key and the NetworkId of the stored record. A repeated caller makes `Add`
      throw, but only after the fan-out has been sent. */
  lemma ServerStampsSender(n: Node, sender: int32, payload: Payload, order: seq<int32>)
    requires IsEnumeration(order, n.players.Keys)
    requires n.role == Server && Decode(payload).Success?
    ensures var p := Decode(payload).value;
      var stamped := p.(networkId := sender);
      var r := Handle(n, sender, payload, order);
      r.node.outbox == n.outbox + FanOut(order, n.players, sender, Encode(stamped)) &&
      (sender !in n.players ==>
         r.status == Registered(sender) && r.node.players == n.players[sender := stamped] &&
         r.node.players[sender].networkId == sender &&
         r.node.players[sender].name == p.name && r.node.players[sender].color == p.color) &&
      (sender in n.players ==> r.status == DuplicateKey(sender) && r.node.players == n.players)
  {
  }

  /** The server's registry keeps every record under its own NetworkId. */
  lemma ServerKeepsStamped(n: Node, sender: int32, payload: Payload, order: seq<int32>)
    requires IsEnumeration(order, n.players.Keys)
    requires n.role == Server && Stamped(n.players)
    ensures Stamped(Handle(n, sender, payload, order).node.players)
    ensures Stamped(ServerCreated(n).node.players)
  {
  }

  lemma {:induction false} SentToAppend(a: seq<Message>, b: seq<Message>, t: int32)
    ensures SentTo(a + b, t) == SentTo(a, t) + SentTo(b, t)
    decreases |a|
  {
    if a == [] {
      assert a + b == b;
    } else {
      var head := if a[0].target == t then [a[0].payload] else [];
      assert (a + b)[0] == a[0];
      assert (a + b)[1..] == a[1..] + b;
      assert SentTo(a + b, t) == head + SentTo(a[1..] + b, t);
      SentToAppend(a[1..], b, t);
      assert head + (SentTo(a[1..], t) + SentTo(b, t)) == (head + SentTo(a[1..], t)) + SentTo(b, t);
    }
  }

  /** Appending one key to the enumeration appends its iteration to the fan-out. */
  lemma {:induction false} FanOutSnoc(order: seq<int32>, k: int32, players: Registry, caller: int32, announced: Payload)
    requires forall j :: j in order ==> j in players
    requires k in players
    ensures FanOut(order + [k], players, caller, announced)
         == FanOut(order, players, caller, announced) + FanOutStep(k, players, caller, announced)
  {
    if order == [] {
      assert order + [k] == [k];
      assert [k][1..] == [];
    } else {
      assert (order + [k])[0] == order[0];
      assert (order + [k])[1..] == order[1..] + [k];
      FanOutSnoc(order[1..], k, players, caller, announced);
    }
  }

  /** What one iteration sends to `t`. */
  lemma FanOutStepSentTo(k: int32, players: Registry, caller: int32, announced: Payload, t: int32)
    requires k in players
    ensures SentTo(FanOutStep(k, players, caller, announced), t)
         == (if k != SERVER_ID && k == t then [announced] else []) + (if caller == t then [Encode(players[k])] else [])
  {
    var last := [Message(caller, Encode(players[k]))];
    assert last[1..] == [];
    if k != SERVER_ID {
      SentToAppend([Message(k, announced)], last, t);
      assert [Message(k, announced)][1..] == [];
    } else {
      assert FanOutStep(k, players, caller, announced) == last;
    }
  }

  /** To anyone but the caller, the fan-out sends the newcomer's record once to each
      enumerated key other than the server, and nothing to anyone else. */
  lemma {:induction false} FanOutToOthers(order: seq<int32>, players: Registry, caller: int32, announced: Payload, t: int32)
    requires forall k :: k in order ==> k in players
    requires NoDuplicates(order) && t != caller
    ensures SentTo(FanOut(order, players, caller, announced), t)
         == if t in order && t != SERVER_ID then [announced] else []
  {
    if order != [] {
      var k := order[0];
      SentToAppend(FanOutStep(k, players, caller, announced), FanOut(order[1..], players, caller, announced), t);
      FanOutStepSentTo(k, players, caller, announced, t);
      FanOutToOthers(order[1..], players, caller, announced, t);
      assert t == k ==> t !in order[1..];
      assert t in order <==> t == k || t in order[1..];
    }
  }

  /** The records of the keys of `order`, in that order. */
  function Records(order: seq<int32>, players: Registry): (rs: seq<Payload>)
    requires forall j :: j in order ==> j in players
    ensures |rs| == |order|
    ensures forall i :: 0 <= i < |order| ==> rs[i] == Encode(players[order[i]])
  {
    if order == [] then [] else [Encode(players[order[0]])] + Records(order[1..], players)
  }

  /** When the caller is not among the enumerated keys, what it receives is the
      record of each enumerated key, in enumeration order. */
  lemma {:induction false} FanOutToCaller(order: seq<int32>, players: Registry, caller: int32, announced: Payload)
    requires forall j :: j in order ==> j in players
    requires caller !in order
    ensures SentTo(FanOut(order, players, caller, announced), caller) == Records(order, players)
  {
    if order != [] {
      var j := order[0];
      SentToAppend(FanOutStep(j, players, caller, announced), FanOut(order[1..], players, caller, announced), caller);
      FanOutStepSentTo(j, players, caller, announced, caller);
      FanOutToCaller(order[1..], players, caller, announced);
    }
  }

  /** In a stamped registry no two keys have the same record, so the records of a
      duplicate-free enumeration hold each enumerated key's record exactly once. */
  lemma {:induction false} RecordsOnce(order: seq<int32>, players: Registry, k: int32)
    requires forall j :: j in order ==> j in players
    requires NoDuplicates(order) && Stamped(players) && k in players
    ensures multiset(Records(order, players))[Encode(players[k])] == if k in order then 1 else 0
  {
    if order != [] {
      var j := order[0];
      NoDuplicatesTail(order);
      RecordsOnce(order[1..], players, k);
      assert Records(order, players) == [Encode(players[j])] + Records(order[1..], players);
      assert Encode(players[j])[NETWORK_ID_KEY] == Int(j);
      assert Encode(players[k])[NETWORK_ID_KEY] == Int(k);
    }
  }

  /** The fan-out holds two messages per enumerated key, one fewer if the server is
      among them. */
  lemma {:induction false} FanOutLength(order: seq<int32>, players: Registry, caller: int32, announced: Payload)
    requires forall k :: k in order ==> k in players
    requires NoDuplicates(order)
    ensures |FanOut(order, players, caller, announced)| == 2 * |order| - (if SERVER_ID in order then 1 else 0)
  {
    if order != [] {
      FanOutLength(order[1..], players, caller, announced);
      assert order[0] == SERVER_ID ==> SERVER_ID !in order[1..];
      assert SERVER_ID in order <==> order[0] == SERVER_ID || SERVER_ID in order[1..];
    }
  }

  /** An enumeration of a key set is as long as the set is large. */
  lemma {:induction false} EnumerationLength(order: seq<int32>, keys: set<int32>)
    requires IsEnumeration(order, keys)
    ensures |order| == |keys|
  {
    if order != [] {
      var k := order[0];
      NoDuplicatesTail(order);
      assert IsEnumeration(order[1..], keys - {k});
      EnumerationLength(order[1..], keys - {k});
    } else {
      assert forall j :: j !in keys;
    }
  }

  /** Every previously registered id other than the server's is told about the
      newcomer exactly once, with the stamped record; the server's id and every
      id not registered are told nothing. */
  lemma ServerNotifiesOthers(n: Node, sender: int32, payload: Payload, order: seq<int32>, t: int32)
    requires IsEnumeration(order, n.players.Keys)
    requires n.role == Server && Decode(payload).Success? && t != sender
    ensures var r := Handle(n, sender, payload, order);
      var sent := r.node.outbox[|n.outbox|..];
      |n.outbox| <= |r.node.outbox| && r.node.outbox[..|n.outbox|] == n.outbox &&
      SentTo(sent, t) == if t in n.players && t != SERVER_ID
                         then [Encode(Decode(payload).value.(networkId := sender))] else []
  {
    var stamped := Decode(payload).value.(networkId := sender);
    var r := Handle(n, sender, payload, order);
    var fan := FanOut(order, n.players, sender, Encode(stamped));
    assert r.node.outbox == n.outbox + fan;
    assert r.node.outbox[|n.outbox|..] == fan;
    FanOutToOthers(order, n.players, sender, Encode(stamped), t);
  }

  /** A newcomer unknown to the server is sent every registered record (the
      server's own included), one per key in enumeration order, and nothing else;
      since the server's records are stamped, each arrives exactly once. */
  lemma ServerBackfillsCaller(n: Node, sender: int32, payload: Payload, order: seq<int32>, k: int32)
    requires IsEnumeration(order, n.players.Keys)
    requires n.role == Server && Decode(payload).Success? && sender !in n.players
    ensures var r := Handle(n, sender, payload, order);
      var sent := r.node.outbox[|n.outbox|..];
      |n.outbox| <= |r.node.outbox| &&
      SentTo(sent, sender) == Records(order, n.players) &&
      |SentTo(sent, sender)| == |n.players| &&
      (Stamped(n.players) && k in n.players ==> multiset(SentTo(sent, sender))[Encode(n.players[k])] == 1)
  {
    var stamped := Decode(payload).value.(networkId := sender);
    var r := Handle(n, sender, payload, order);
    var fan := FanOut(order, n.players, sender, Encode(stamped));
    assert r.node.outbox[|n.outbox|..] == fan;
    FanOutToCaller(order, n.players, sender, Encode(stamped));
    EnumerationLength(order, n.players.Keys);
    if Stamped(n.players) && k in n.players {
      RecordsOnce(order, n.players, k);
    }
  }

  /** A request to a server holding n entries, the server's among them, sends
      2n - 1 messages. */
  lemma ServerMessageCount(n: Node, sender: int32, payload: Payload, order: seq<int32>)
    requires IsEnumeration(order, n.players.Keys)
    requires n.role == Server && Decode(payload).Success? && SERVER_ID in n.players
    ensures var r := Handle(n, sender, payload, order);
      |r.node.outbox| == |n.outbox| + 2 * |n.players| - 1
  {
    var stamped := Decode(payload).value.(networkId := sender);
    FanOutLength(order, n.players, sender, Encode(stamped));
    EnumerationLength(order, n.players.Keys);
  }

  // ---------------------------------------------------------------------------
  // Session start

  /** A fresh server's registry is its own entry under id 1. */
  lemma ServerCreatedOnEmpty(n: Node)
    requires n.players == map[]
    ensures ServerCreated(n).status == Registered(SERVER_ID)
    ensures ServerCreated(n).node.players == map[SERVER_ID := SERVER_PLAYER]
    ensures SERVER_PLAYER.name == Some("ServerPlayer") && SERVER_PLAYER.networkId == SERVER_ID
    ensures ServerCreated(n).node.outbox == n.outbox
  {
  }

  /** A fresh client registers itself under its own unique id and sends exactly one
      message, to the server, carrying that entry's record. */
  lemma JoinSuccessOnEmpty(n: Node, uniqueId: int32, first: int32)
    requires n.players == map[] && first == uniqueId
    ensures var r := JoinSuccess(n, uniqueId, first);
      r.status == Registered(uniqueId) &&
      r.node.players == map[uniqueId := CLIENT_PLAYER] &&
      r.node.outbox == n.outbox + [Message(SERVER_ID, Encode(CLIENT_PLAYER))]
  {
  }

  /** On an empty registry, the entry the client has just added is the only one
      `Values.First()` can yield. */
  lemma JoinSuccessFirstIsOwn(n: Node, uniqueId: int32, first: int32)
    requires n.players == map[]
    requires uniqueId !in n.players ==> first == uniqueId || first in n.players
    ensures first == uniqueId
  {
  }
}
