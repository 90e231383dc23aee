# Player registration in EscapeRoom's networking layer

This project models the player-registration protocol of the game's `Network` node and proves
properties of it. It also models the `Player` record's encoding into a Godot dictionary.

- Every process keeps a `Players` registry that maps peer ids to `Player` records.
- The server creates itself and registers its own entry under id 1.
- A client registers itself, then sends its record to the server.
- The server stamps the caller's transport id into the record. It then sends the newcomer to
  every existing client and every existing record back to the newcomer. Only then does it insert
  the newcomer.
- A client accepts such messages only from the server.

The project has four modules, one file each.

- `PlayerRecord` (`player.dfy`) models `Player`, `ToGodotDictionary` and
  `PopulateFromGodotDictionary`.
  - The encoding is a `map<string, Value>`, where `Value` tags the runtime type of the boxed
    object.
  - Decoding returns a `Result` that names the cast that throws.
  - Lemmas prove both round trips, the failure conditions, and that keys other than the three
    fields are ignored.
- `Registration` (`registration.dfy`) gives each handler of `Network.cs` as a function on a
  node's state. The state is its role, its registry and the RPCs it has sent (an outbox of
  `Message(target, payload)`).
  - `Dictionary.Keys` has no specified order, so the handler takes the order as a parameter.
    `order` may be any enumeration of the keys, and every fan-out property is proved for all of
    them.
  - The fan-out properties are stated per recipient, counting what each id is sent.
- `NetworkNode` (`network.dfy`) is the `Network` object itself: a class whose `role`,
  `players` and `outbox` fields its methods update in place.
  - `NetworkRegisterPlayer` keeps the source's `foreach` over the keys as a loop. It picks the
    keys in an arbitrary order and has the invariants the proof needs.
  - Each method is proved to leave exactly the state that the matching `Registration` function
    computes. It returns the enumeration order it used as a ghost value.
- `Session` (`session.dfy`) is a harness of several processes.
  - The server is created, then clients join one at a time.
  - After each join, messages are delivered from one first-in-first-out queue until none is in
    flight.
  - Each delivery runs the target's `Handle`, with the sender's id as `GetRpcSenderId`.
  - The lemmas prove what the comments at Network.cs:87, 95, 104 and 158 describe: the server
    updates all players and sends the newcomer info about all players, so that everyone learns
    about everyone.
    After every join, every process has the same key set: id 1 plus every joined id. Every
    process also agrees with the server on every entry except its own, and nothing is left in
    flight.

Where the code's behaviour is surprising, the model follows the code.

- The server sends its whole fan-out before `Players.Add`. So a repeated request from an id it
  already holds is still announced to everyone, and only then does `Add` throw.
  - See `ServerStampsSender`.
- A client's own entry is never stamped. It keeps NetworkId 0, since only the server
  overwrites the id, and the server never echoes the newcomer's own record back to it.
  - See `ClientSelfEntryUnstamped`.
- `_on_connection_failed` drops the network peer but keeps `Players`.
- The payload is decoded before the origin check. A malformed payload from any sender ends the
  handler with a failed cast, even on a client that would have ignored the sender.

## Model

| member | source | states |
|---|---|---|
| PlayerRecord.EncodeFields | Game/Networking/Player.cs:10-17 | The encoding's keys are exactly "Name", "NetworkId" and "Color". Each holds its field; a null name is stored as null. |
| PlayerRecord.DecodeEncode | Game/Networking/Player.cs:10-33 | Decoding an encoded player succeeds and gives back the same Name, NetworkId and Color. |
| PlayerRecord.EncodeInjective | Game/Networking/Player.cs:10-17 | Two players with equal encodings are equal. |
| PlayerRecord.DecodeFailsIff | Game/Networking/Player.cs:19-33 | Decoding fails exactly when a cast fails: Name holds neither a string nor null, or NetworkId is not an int, or Color is not a Color. |
| PlayerRecord.DecodeErrors | Game/Networking/Player.cs:22-30 | The exception names the first failing cast, in source order. A Name of another type throws InvalidCast. A missing or null NetworkId or Color throws on unboxing null; one of another runtime type throws InvalidCast. A missing Name gives a null name, not an error. |
| PlayerRecord.DecodeIgnoresExtraKeys | Game/Networking/Player.cs:19-33 | Entries under keys other than the three fields do not change the result of decoding. |
| PlayerRecord.EncodeDecode | Game/Networking/Player.cs:10-33 | A map with exactly the three keys, each correctly typed, re-encodes to itself after decoding. |
| Registration.EnumerationOf | Game/Networking/Network.cs:94 | Every key set has an enumeration, so `foreach` over `Players.Keys` can visit all keys, once each. |
| Registration.RegisterAddsOnly | Game/Networking/Network.cs:113-115 | `Add` on a fresh key adds exactly that key with the given record and keeps every other entry. On a present key it fails and changes nothing. It never touches the role or the outbox. |
| Registration.HandleAddsOnly | Game/Networking/Network.cs:71-111 | Whatever the role, a request changes the registry exactly when it reports `Registered(k)`. It then adds only the fresh key `k` and keeps every existing entry. |
| Registration.ClientIgnoresForeignSender | Game/Networking/Network.cs:83 | On a client, a request from any sender but 1 leaves the node unchanged: registry, outbox and role. It is reported as dropped exactly when its payload decodes. |
| Registration.ClientAcceptsServer | Game/Networking/Network.cs:83-110 | On a client, a request from 1 sends nothing. It stores the record under the payload's own NetworkId, or fails on a present key. |
| Registration.ServerStampsSender | Game/Networking/Network.cs:88-110 | On the server, the key and the stored NetworkId are the sender id, whatever the payload held; name and colour are kept. The fan-out is sent even when the id is already present and `Add` fails. |
| Registration.ServerKeepsStamped | Game/Networking/Network.cs:88-145 | A server registry whose records carry their own keys as NetworkId keeps this property through requests and `_on_server_created`. |
| Registration.FanOutToOthers | Game/Networking/Network.cs:94-100 | For any enumeration order, each enumerated id other than 1 and the caller receives the newcomer's record exactly once. Id 1 and unenumerated ids receive nothing. |
| Registration.FanOutToCaller | Game/Networking/Network.cs:94-107 | For any enumeration order that does not list the caller, the caller receives exactly the records of the enumerated keys, in enumeration order. |
| Registration.RecordsOnce | Game/Networking/Network.cs:94-107 | In a registry where every record is stored under its own NetworkId, the records of a duplicate-free enumeration include each enumerated key's record exactly once. |
| Registration.FanOutLength | Game/Networking/Network.cs:94-107 | The loop sends two messages per key, one fewer when the server's key is among them. |
| Registration.ServerNotifiesOthers | Game/Networking/Network.cs:94-100 | A request to the server appends to the outbox. Every registered id other than 1 and the caller is sent the stamped record exactly once; everyone else gets nothing. |
| Registration.ServerBackfillsCaller | Game/Networking/Network.cs:94-107 | A newcomer unknown to the server is sent the record of every registered key, the server's own included, in the enumeration's order, as many as the registry holds. When the server's records are stamped, each arrives exactly once. |
| Registration.ServerMessageCount | Game/Networking/Network.cs:94-107 | A server with n entries, 1 among them, sends 2n - 1 messages for one request. |
| Registration.ServerCreatedOnEmpty | Game/Networking/Network.cs:139-145 | On an empty registry, `_on_server_created` yields exactly {1 ↦ ("ServerPlayer", NetworkId 1)} and sends nothing. |
| Registration.JoinSuccessOnEmpty | Game/Networking/Network.cs:149-161 | On an empty registry, `_on_join_success` adds one entry under the client's unique id. It sends exactly one message, to 1, carrying that entry. |
| Registration.JoinSuccessFirstIsOwn | Game/Networking/Network.cs:159-160 | On an empty registry, `Values.First()` can only yield the entry just added. |
| NetworkNode.Network.constructor | Game/Networking/Network.cs:23 | A new node has no peer, an empty registry and nothing sent. |
| NetworkNode.Network.CreateServer | Game/Networking/Network.cs:44-54 | A failed listen changes nothing. A successful one makes the node the server and runs `_on_server_created`. |
| NetworkNode.Network.JoinServer | Game/Networking/Network.cs:56-67 | A successful dial makes the node a client and changes nothing else. A failed one changes nothing. |
| NetworkNode.Network.RegisterPlayer | Game/Networking/Network.cs:113-120 | The new fields and status are those of `Register`: the key is added, or the `Add` fails on a present key. |
| NetworkNode.Network.NetworkRegisterPlayer | Game/Networking/Network.cs:71-111 | The loop over the keys visits an enumeration of the registry's keys. The new state and status are those of `Handle` for that order, so every fan-out lemma applies. |
| NetworkNode.Network.OnServerCreated | Game/Networking/Network.cs:139-145 | The new state is the server's own entry added under id 1. |
| NetworkNode.Network.OnJoinSuccess | Game/Networking/Network.cs:149-161 | The client adds its own entry, then sends one request to 1 with the record `Values.First()` yields. The key that record comes from is the new one or an old one. |
| NetworkNode.Network.OnConnectionFailed | Game/Networking/Network.cs:169-172 | Only the role changes, back to no peer. |
| Session.DeliverToClient | Game/Networking/Network.cs:83-110 | A client handed the server's message about a player whose id it lacks adds that player and sends nothing. |
| Session.DeliverToServer | Game/Networking/Network.cs:88-110 | The server handed a newcomer's request registers the newcomer, stamped. It queues the fan-out over its keys in the enumeration's order. |
| Session.DrainStep | Game/Networking/Network.cs:94-110 | Delivering one key's messages updates that key's client (unless the key is 1) and the newcomer; nothing else changes. |
| Session.DrainFanOut | Game/Networking/Network.cs:94-110 | Delivering the whole fan-out, with two deliveries of fuel per key, leaves every process settled with the newcomer registered. |
| Session.JoinReachesServer | Game/Networking/Network.cs:149-161 | After a client joins a settled session, the first delivery is its request to the server. That delivery starts the fan-out. |
| Session.JoinSettles | Game/Networking/Network.cs:71-161 | A join into a settled session with ids `ids` ends settled with ids `ids` plus the newcomer, given 2·|ids| + 1 deliveries. |
| Session.RunSettled | Game/Networking/Network.cs:71-161 | After any sequence of distinct clients has joined, the session is settled on 1 plus every joined id. |
| Session.IdsCount | Game/Networking/Network.cs:153 | The session's ids are 1 plus one per distinct client. |
| Session.SettledView | Game/Networking/Network.cs:87-110 | In a settled session: nothing is in flight and every process holds the same key set. Every process agrees with the server on every entry but its own, and the server's records all carry their own ids. |
| Session.SessionConverges | Game/Networking/Network.cs:87-160 | When the joins are done, every registry has exactly the keys 1 and the joined ids, and nothing is in flight. Entries agree with the server's except each client's entry for itself. |
| Session.ClientSelfEntryUnstamped | Game/Networking/Network.cs:92-155 | A client never learns its own id: its entry for itself keeps NetworkId 0, while the server holds it stamped with the client's id. |

## Left out

- The ENet transport is only a role value and a success flag for the listen and dial calls.
  - This covers `NetworkedMultiplayerENet`, `CreateServer(Port)`, `CreateClient` and `NetworkPeer`.
  - These are engine calls.
- `RpcId`, `[Remote]`, `GetRpcSenderId` and `GetNetworkUniqueId` become an outbox and explicit id parameters.
  - In the harness, one global first-in-first-out queue stands in for the transport.
  - The transport is assumed to deliver each payload unchanged, every boxed value keeping its runtime type. Godot's marshalling of a `Dictionary<string, object>` must return NetworkId as a boxed `int` and Color as a `Color`. Otherwise the casts at Player.cs:27 and 30 throw and the request is lost. The convergence lemmas rest on this assumption.
  - The harness does not model messages overtaking one another, loss, disconnects or concurrent joins.
  - The engine delivers callbacks one at a time, so each handler is one atomic step.
- Signal wiring in `_Ready`, the `[Signal]` delegates and `EmitSignal` are left out as event plumbing.
  - The `connected_to_server` → `JoinSuccess` chain is folded into `OnJoinSuccess` and the harness's `Join`.
- `GD.Print` logging is left out, and so are the unused `Instance`, `MaxPlayers` and `Port`.
- The empty hooks `_on_player_connected` and `_on_player_disconnected` have no behaviour to model, and neither does the print-only `_on_disconnected_from_server`.
- `Color` internals: the four components are never inspected, only copied and compared for equality. They are `real` in the model, where Godot has 32-bit floats. `default(Color)` is the unassigned colour.
- Exceptions are statuses.
  - A failed cast is `DecodeFailed`; a throwing `Add` is `DuplicateKey`.
  - What the engine does after the exception (logging it and carrying on) is outside the model.
- Session.Run: settling after each join is bounded by 2·n + 1 deliveries, where n is the number of processes before the join.
  - The lemmas show the queue is then empty, so more deliveries would change nothing.
  - Joins that overlap in time are not modelled.
- NetworkNode.Network.NetworkRegisterPlayer and NetworkNode.Network.OnJoinSuccess: the unspecified order of `Players.Keys` and `Players.Values` is returned as a ghost value. The method's contract is then proved for whatever order it took, not for one fixed order.
