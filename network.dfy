/** The `Network` node of Game/Networking/Network.cs: one process's role, its
    `Players` dictionary and the RPCs it has sent, updated in place by the
    handlers. Each method is proved to leave exactly the state the matching
    function of `Registration` computes. */
module NetworkNode {
  import opened PlayerRecord
  import opened Registration

  class Network {
    var role: Role
    var players: Registry
    var outbox: seq<Message>

    function State(): Node
      reads this
    {
      Node(role, players, outbox)
    }

    constructor ()
      ensures State() == Node(Unbound, map[], [])
    {
      role := Unbound;
      players := map[];
      outbox := [];
    }

    /** `CreateServer`: the listen call's outcome is `listenOk`; on success the node
        becomes the server and its `ServerCreated` handler runs at once. */
    method CreateServer(listenOk: bool) returns (status: Option<Status>)
      modifies this
      ensures !listenOk ==> State() == old(State()) && status == None
      ensures listenOk ==>
        var r := ServerCreated(old(State()).(role := Server));
        State() == r.node && status == Some(r.status)
    {
      if !listenOk {
        return None;
      }
      role := Server;
      var s := OnServerCreated();
      status := Some(s);
    }

    /** `JoinServer`: the dial call's outcome is `dialOk`; on success the node is a
        client, and nothing else happens until the transport reports the connection. */
    method JoinServer(dialOk: bool)
      modifies this
      ensures State() == if dialOk then old(State()).(role := Client) else old(State())
    {
      if dialOk {
        role := Client;
      }
    }

    /** `RegisterPlayer`. */
    method RegisterPlayer(networkId: int32, newPlayer: Player) returns (status: Status)
      modifies this
      ensures var r := Register(old(State()), networkId, newPlayer);
        State() == r.node && status == r.status
    {
      if networkId in players {
        return DuplicateKey(networkId);
      }
      players := players[networkId := newPlayer];
      status := Registered(networkId);
    }

    /** `NetworkRegisterPlayer` called by peer `callerId`. The keys are visited in an
        arbitrary order; `order` reports the one this call took. */
    method NetworkRegisterPlayer(encodedNewPlayer: Payload, callerId: int32) returns (status: Status, ghost order: seq<int32>)
      modifies this
      ensures IsEnumeration(order, old(players).Keys)
      ensures var r := Handle(old(State()), callerId, encodedNewPlayer, order);
        State() == r.node && status == r.status
    {
      order := EnumerationOf(players.Keys);
      var decoded := Decode(encodedNewPlayer);
      if decoded.Failure? {
        return DecodeFailed(decoded.error), order;
      }
      var newPlayer := decoded.value;
      if role != Server && callerId != SERVER_ID {
        return Dropped, order;
      }
      if role == Server {
        newPlayer := newPlayer.(networkId := callerId);
        var announced := Encode(newPlayer);
        var remaining := players.Keys;
        order := [];
        while remaining != {}
          invariant players == old(players) && role == old(role)
          invariant forall k :: k in remaining ==> k in players
          invariant NoDuplicates(order)
          invariant forall k :: k in order <==> k in players && k !in remaining
          invariant outbox == old(outbox) + FanOut(order, players, callerId, announced)
          decreases remaining
        {
          var playerId :| playerId in remaining;
          FanOutSnoc(order, playerId, players, callerId, announced);
          if playerId != SERVER_ID {
            outbox := outbox + [Message(playerId, announced)];
          }
          outbox := outbox + [Message(callerId, Encode(players[playerId]))];
          order := order + [playerId];
          remaining := remaining - {playerId};
        }
      }
      status := RegisterPlayer(newPlayer.networkId, newPlayer);
    }

    /** `_on_server_created`. */
    method OnServerCreated() returns (status: Status)
      modifies this
      ensures var r := ServerCreated(old(State()));
        State() == r.node && status == r.status
    {
      status := RegisterPlayer(SERVER_ID, SERVER_PLAYER);
    }

    /** `_on_join_success` on the client whose unique id is `uniqueId`; `first` is
        the key `Players.Values.First()` landed on. */
    method OnJoinSuccess(uniqueId: int32) returns (status: Status, ghost first: int32)
      modifies this
      ensures uniqueId !in old(players) ==> first == uniqueId || first in old(players)
      ensures var r := JoinSuccess(old(State()), uniqueId, first);
        State() == r.node && status == r.status
    {
      first := uniqueId;
      if uniqueId in players {
        return DuplicateKey(uniqueId), first;
      }
      players := players[uniqueId := CLIENT_PLAYER];
      assert uniqueId in players;
      var firstId :| firstId in players;
      first := firstId;
      outbox := outbox + [Message(SERVER_ID, Encode(players[firstId]))];
      status := Registered(uniqueId);
    }

    /** `_on_connection_failed`. */
    method OnConnectionFailed()
      modifies this
      ensures State() == ConnectionFailed(old(State()))
    {
      role := Unbound;
    }
  }
}
