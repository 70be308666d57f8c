# Unet network backends: ENet state machine and Steam request bookkeeping

Unet is a multi-backend lobby and networking library. A `Context` runs a lobby
over several network backends ("services") at once. Each backend answers the
Context's logical operations (create, join and leave a lobby, list lobbies) by
adding a request to one of the Context's correlators and resolving it later.
It also tells the current lobby when a member or the whole backend goes away,
and moves packets between peers.

This project models two backends:

- **ENet** (`src/Services/ServiceEnet.cpp`, `include/Unet/Services/ServiceEnet.h`).
  This is a direct-UDP backend. It owns the ENet host, the peer to the lobby
  host, the list of connected peers and one FIFO queue of received packets per
  channel. `RunCallbacks` is its event pump. It connects to the lobby's other
  members once the Context is connected. Then it services CONNECT, DISCONNECT
  and RECEIVE events until the host goes away or no event is left.
  A peer's 64-bit ID is its address word cut to 48 bits.
- **Steam** (`src/Services/ServiceSteam.cpp`). This backend forwards every
  operation to the Steam SDK and keeps the SDK's asynchronous answers in
  order:
  - the pending create, join and list requests;
  - the lobbies whose data a lobby list still waits for;
  - the lobbies whose data `FetchLobbyInfo` asked for;
  - the lobby host's Steam ID, whose loss ends the session.

Each backend is written twice:

- a pure state-transition module (`EnetSpec`, `SteamSpec`). It has a state
  datatype, one function per operation or callback, and lemmas that relate
  the operations;
- a class (`EnetService.ServiceEnet`, `SteamService.ServiceSteam`). Its fields
  mirror the C++ members and its methods update them in place, loops
  included. Each method is proved to take the class from `State()` to exactly
  the state the matching spec function computes.

The module `Unet` holds the shared value types and a `Context` object whose
`log` records every request added, lobby notification raised and Handshake
sent. The effects the source has on code this model cannot see become inputs
or recorded outputs:

- whether `enet_host_create` succeeded;
- the events `enet_host_service` yields;
- the lobby's members;
- Steam's search results, friends and lobby metadata;
- every ENet or Steam call made, appended to `calls`.

## Model

| member | source | states |
|---|---|---|
| Unet.Find | src/Services/ServiceEnet.cpp:119-121 | `std::find`: returns the end position exactly when the element is absent, else its first index |
| Unet.RemoveFirst | src/Services/ServiceEnet.cpp:137-142 | erasing the first occurrence removes exactly one copy from the multiset, and leaves the sequence alone when the element is absent |
| Unet.RemoveFirstKeepsNoDuplicates | src/Services/ServiceEnet.cpp:137-142 | erasing from a duplicate-free list keeps it duplicate-free, and the erased element is gone |
| EnetSpec.AddressToInt | src/Services/ServiceEnet.cpp:15-18 | masking the address word to 48 bits yields host + port·2³², below 2⁴⁸; the padding never shows |
| EnetSpec.AddressToID | src/Services/ServiceEnet.cpp:22-25 | an address becomes a valid ENet ServiceID whose number is the 48-bit host/port value |
| EnetSpec.IdAddressRoundTrip | src/Services/ServiceEnet.cpp:28-31 | an ID turned into an address and back loses only its bits above 48; an ID below 2⁴⁸ comes back unchanged |
| EnetSpec.AddressIdRoundTrip | src/Services/ServiceEnet.cpp:13-31 | an address turned into an ID and back keeps host and port and zeroes the padding |
| EnetSpec.SameIdIffSameEndpoint | src/Services/ServiceEnet.cpp:22-25 | two addresses get the same ID if and only if host and port agree |
| EnetSpec.Initial | include/Unet/Services/ServiceEnet.h:26-47 | a new backend has no host, no peers, no channels, no requests and is not searching; it is Valid |
| EnetSpec.ReleaseOrphanedJoin | src/Services/ServiceEnet.cpp:104-114 | establishes that a pending join always has a host and a host peer, by resolving a join without them as Error; a state that already satisfies this is unchanged |
| EnetSpec.ClearChannels | src/Services/ServiceEnet.cpp:479-493 | afterwards there are exactly n channels, all empty, and nothing else changes |
| EnetSpec.StartSearch | src/Services/ServiceEnet.cpp:495-502 | searching afterwards; discovery is started only when it was not running |
| EnetSpec.StopSearch | src/Services/ServiceEnet.cpp:504-509 | not searching afterwards; discovery is stopped only when it was running |
| EnetSpec.CreateLobbyStopsDiscovery | src/Services/ServiceEnet.cpp:216 | creating a lobby leaves discovery stopped and issues exactly one discovery stop when a search was running, none otherwise |
| EnetSpec.LeaveLobbyStopsDiscovery | src/Services/ServiceEnet.cpp:325 | leaving a lobby leaves discovery stopped and issues exactly one discovery stop when a search was running, none otherwise |
| EnetSpec.JoinKeepsDiscovery | src/Services/ServiceEnet.cpp:294-319 | joining neither starts nor stops discovery and leaves the search flag as it was |
| EnetSpec.FirstPeerWithId | src/Services/ServiceEnet.cpp:471-476 | finds a listed peer with that ID, and finds none exactly when no listed peer has it |
| EnetSpec.GetPeer | src/Services/ServiceEnet.cpp:465-477 | the valid ID 0 names the host peer; any other ID resolves to a listed peer with that address, and to none exactly when no peer has it |
| EnetSpec.SenderID | src/Services/ServiceEnet.cpp:427-433 | a packet's sender is reported as ID 0 when it came from the host peer, else by its address |
| EnetSpec.SenderIDResolves | src/Services/ServiceEnet.cpp:465-477 | a reported sender resolves back to the same peer via GetPeer, for the host peer or any listed peer whose address is unique and non-zero |
| EnetSpec.FirstPeerIsUnique | src/Services/ServiceEnet.cpp:471-476 | a listed peer whose ID no other listed peer shares is the one the lookup finds |
| EnetSpec.LobbyEntryPointIgnoresPadding | src/Services/ServiceEnet.cpp:202-231 | the advertised entry point is (ENet, port·2³²) whatever the uninitialised padding holds |
| EnetSpec.OpenHost | src/Services/ServiceEnet.cpp:206-216 | numChannels + 2 empty channels, a host exactly when creation succeeded, no peers or host peer, not waiting, not searching. The calls made are one host creation on the bind address with the player limit and numChannels + 2 channels, then a discovery stop exactly when a search was running. Nothing else changes: requests, handles and the peer counter are kept |
| EnetSpec.AddCreateRequest | src/Services/ServiceEnet.cpp:230-232 | appends one create request: OK with the entry point when the host lives, Error with no entry point otherwise; nothing else changes |
| EnetSpec.CreateLobbyAsWritten | src/Services/ServiceEnet.cpp:200-233 | the code as written: the new create request is OK with the entry point whether or not the host was created |
| EnetSpec.CreateLobby | src/Services/ServiceEnet.cpp:200-233 | fresh empty channels, no peers, not waiting or searching, and one new create request that is OK with the entry point exactly when the host was created. Makes the same calls as OpenHost. Every earlier request is kept, except that a join still pending is resolved Error and its handle released; a join that is not pending keeps its handle. Lobby events, handshakes and the leave handle are kept; keeps Valid |
| EnetSpec.JoinLobbyAsWritten | src/Services/ServiceEnet.cpp:294-319 | the code as written: a new pending join request and fresh channels; with a host, the host peer is the only peer and members are awaited; without one the join stays pending |
| EnetSpec.JoinLobby | src/Services/ServiceEnet.cpp:294-319 | one client host creation (no address, 128 peers, numChannels + 2 channels). With a host: one connect to a new host peer at the lobby's address, which is the only peer; the join is pending on it and members are awaited. Without one: peers and host peer stay as they were, and the new join request is Error and released. Earlier requests, lobby events, handshakes, the leave handle and the search flag are kept; keeps Valid |
| EnetSpec.LeaveLobby | src/Services/ServiceEnet.cpp:321-344 | stops searching and adds a leave request. With a host peer: the request stays pending and a graceful disconnect goes to that peer. Without one: the host is destroyed (one host destroy call), the request is OK, and the lobby hears the backend disconnected. Earlier requests, the join handle, handshakes, peers and channels are kept |
| EnetSpec.DropConnections | src/Services/ServiceEnet.cpp:56-69 | every peer disconnected at once, the host destroyed if there was one, no peers or host peer left; nothing else changes, so a pending join stays Pending |
| EnetSpec.DisconnectAll | src/Services/ServiceEnet.cpp:58-60 | one immediate disconnect per peer, in list order |
| EnetSpec.SimulateOutage | src/Services/ServiceEnet.cpp:56-69 | the calls are one disconnect per peer, then a host destroy when there was a host; no host, host peer or peers afterwards; a pending join is resolved Error and its handle released, any other state's requests untouched; every other field kept; keeps Valid |
| EnetSpec.OnConnect | src/Services/ServiceEnet.cpp:104-123 | only the context and the peer list change. With a join pending: the join is OK with the connecting peer as entry point, one Handshake goes to the host with the join's GUID, and lobby events are kept. Otherwise the peer is added unless already listed |
| EnetSpec.OnDisconnectAsWritten | src/Services/ServiceEnet.cpp:125-166 | the code as written: only the pending leave request can change; the join handle is kept even when the host goes away |
| EnetSpec.OnDisconnect | src/Services/ServiceEnet.cpp:125-166 | the handler as written followed by the release of an orphaned join. A pending leave resolves OK, the host is destroyed (one host destroy call), and peers and lobby events are kept. Otherwise the peer is removed and the lobby loses its ID. Losing the host peer also disconnects every other peer at once, destroys the host and tells the lobby the backend disconnected. A join waiting on a torn-down host is resolved Error and released. No other request changes, and handshakes and channels are kept; keeps Valid |
| EnetSpec.CompleteLeave | src/Services/ServiceEnet.cpp:126-133 | the leave request becomes OK and no other request changes; one host destroy call; host, host peer and leave handle cleared; nothing else changes |
| EnetSpec.DropPeer | src/Services/ServiceEnet.cpp:134-166 | the peer leaves the list and, with a lobby, the lobby loses its ID. For the host peer: every remaining peer is disconnected at once, the host destroyed, and the lobby told; nothing else changes |
| EnetSpec.FinishLeave | src/Services/ServiceEnet.cpp:125-133 | the leave branch with the correction: leave OK, host destroyed, a join that was pending resolved Error and released, every other request and the peers kept; keeps Valid |
| EnetSpec.LosePeer | src/Services/ServiceEnet.cpp:134-166 | the peer branch with the correction: a non-host peer only leaves the list and the lobby; losing the host peer empties the list, destroys the host and resolves a pending join Error; other requests kept; keeps Valid |
| EnetSpec.OnReceive | src/Services/ServiceEnet.cpp:168-176 | an out-of-range channel changes nothing; otherwise the packet goes to the back of exactly its channel's queue |
| EnetSpec.OnEvent | src/Services/ServiceEnet.cpp:102-177 | one event keeps the state Valid and the channel count fixed |
| EnetSpec.ServiceEvents | src/Services/ServiceEnet.cpp:102-177 | the pump keeps the state Valid and the channel count fixed |
| EnetSpec.ConnectMember | src/Services/ServiceEnet.cpp:78-98 | the local member, a member without an ENet ID and one already resolving to a peer leave the state unchanged. Any other member adds one peer at the end, at the member's address, with one connect call using every channel; nothing else changes. Afterwards a remote member with a non-zero ENet ID below 2⁴⁸ resolves to a peer |
| EnetSpec.ConnectMembers | src/Services/ServiceEnet.cpp:78-98 | the member loop keeps Valid and changes neither host, host peer, context, channels nor the waiting flag |
| EnetSpec.ConnectWaitingPeers | src/Services/ServiceEnet.cpp:73-100 | once connected, a live host stops waiting for peers; without a host, while not waiting or before the lobby is connected it changes nothing; context, host and channels unchanged |
| EnetSpec.RunCallbacks | src/Services/ServiceEnet.cpp:71-178 | one pump keeps the state Valid and the channel count fixed |
| EnetSpec.IsPacketAvailable | src/Services/ServiceEnet.cpp:441-463 | a packet is available if and only if the host lives, the channel exists and its queue is non-empty; then the size is the front packet's |
| EnetSpec.ReadPacket | src/Services/ServiceEnet.cpp:414-439 | copies min(size, maxSize) bytes of the front packet, names its sender, and removes exactly that packet; an out-of-range channel reads nothing |
| EnetSpec.ReceiveThenReadIsFifo | src/Services/ServiceEnet.cpp:168-176 | receiving then reading from a non-empty queue gives the same packet as reading first, and the new packet waits at the back |
| EnetSpec.InOrderDelivery | include/Unet/Services/ServiceEnet.h:35 | any number of packets received on one empty channel are read back in order, each whole when it fits and each with its sender's ID, after which the state is as before |
| EnetSpec.ReceiveAll | src/Services/ServiceEnet.cpp:168-176 | RECEIVE events on one in-range channel append exactly those packets, tagged with their peer, to that channel's queue; nothing else changes |
| EnetSpec.ReadAll | src/Services/ServiceEnet.cpp:414-439 | n reads return the first n queue entries in order, each cut to maxSize and with its sender, and remove exactly those entries |
| EnetSpec.SendPacket | src/Services/ServiceEnet.cpp:396-412 | a known peer gets one send with the reliable flag exactly for reliable packets; an unknown peer gets nothing |
| EnetSpec.ReliablePacketLimit | src/Services/ServiceEnet.cpp:391-394 | ENet reports no reliable-packet limit (0) |
| EnetSpec.OnEventKeepsPeersDistinct | src/Services/ServiceEnet.cpp:119-142 | no event makes the peer list hold a peer twice |
| EnetSpec.ServiceEventsKeepsPeersDistinct | src/Services/ServiceEnet.cpp:102-177 | a whole pump keeps the peer list free of duplicates |
| EnetSpec.ServiceEventsWithoutHost | src/Services/ServiceEnet.cpp:103 | without a host the pump changes nothing |
| EnetSpec.FirstPeerWithIdExtends | src/Services/ServiceEnet.cpp:471-476 | adding peers at the end never changes which peer an already-resolving ID finds |
| EnetSpec.ConnectMembersReachesAll | src/Services/ServiceEnet.cpp:73-100 | after the member loop every remote member with a non-zero ENet ID below 2⁴⁸ resolves to a peer, and the earlier peers stay first |
| EnetSpec.LeaveCompletesOnDisconnect | src/Services/ServiceEnet.cpp:125-133 | a leave with a host peer completes on the next DISCONNECT: the request is OK and host, host peer and handle are cleared |
| EnetSpec.JoinCompletesOnConnect | src/Services/ServiceEnet.cpp:104-114 | a join completes on the next CONNECT: OK, the connecting peer as its only entry point, one Handshake to the lobby with the join's GUID |
| EnetSpec.JoinWithoutHostStaysPending | src/Services/ServiceEnet.cpp:306-311 | as written, a join without a host stays pending with nothing to resolve it; corrected, it is Error and the pump leaves it alone |
| EnetSpec.CreateWithoutHostReportsOK | src/Services/ServiceEnet.cpp:210-232 | as written, a lobby without a host is reported OK; corrected, Error |
| EnetSpec.JoinThenCreateOrphansJoin | src/Services/ServiceEnet.cpp:200-233 | as written, a CreateLobby issued while a join waits on its host leaves the join pending beside a live host with no host peer; the corrected CreateLobby resolves that join Error, releases it and stays Valid |
| EnetSpec.FailedConnectOrphansJoin | src/Services/ServiceEnet.cpp:125-166 | as written, a failed connection leaves the join pending, and a later CreateLobby yields a live host, a pending join and no host peer |
| EnetService.EnetIdentity.constructor | include/Unet/Services/ServiceEnet.h:107-108 | the user name starts empty and the MAC address zero |
| EnetService.EnetIdentity.SetLocalUsername | include/Unet/Services/ServiceEnet.h:111-113 | sets the user name and nothing else |
| EnetService.EnetIdentity.SetLocalMacAddress | include/Unet/Services/ServiceEnet.h:115-117 | sets the MAC address and nothing else |
| EnetService.ServiceEnet.constructor | include/Unet/Services/ServiceEnet.h:26-47 | the fields hold EnetSpec.Initial; Valid |
| EnetService.ServiceEnet.GetType | src/Services/ServiceEnet.cpp:180-183 | the backend kind is ENet |
| EnetService.ServiceEnet.GetUserID | src/Services/ServiceEnet.cpp:185-189 | the local ID is exactly (Enet, 0), a valid ENet ID that GetPeer resolves to the host peer |
| EnetService.ServiceEnet.GetServiceUserName | src/Services/ServiceEnet.cpp:191-194 | the user name set through SetLocalUsername |
| EnetService.ServiceEnet.Clear | src/Services/ServiceEnet.cpp:479-493 | the fields become EnetSpec.ClearChannels of the old state |
| EnetService.ServiceEnet.StartSearch | src/Services/ServiceEnet.cpp:495-502 | the fields become EnetSpec.StartSearch of the old state |
| EnetService.ServiceEnet.StopSearch | src/Services/ServiceEnet.cpp:504-509 | the fields become EnetSpec.StopSearch of the old state |
| EnetService.ServiceEnet.GetPeer | src/Services/ServiceEnet.cpp:465-477 | the loop returns EnetSpec.GetPeer of the current state |
| EnetService.ServiceEnet.ReleaseOrphanedJoin | src/Services/ServiceEnet.cpp:104-114 | the fields become EnetSpec.ReleaseOrphanedJoin of the old state |
| EnetService.ServiceEnet.DisconnectPeersNow | src/Services/ServiceEnet.cpp:58-60 | the loop records one immediate disconnect per peer, in order, and changes nothing else |
| EnetService.ServiceEnet.SimulateOutage | src/Services/ServiceEnet.cpp:56-69 | the fields become EnetSpec.SimulateOutage of the old state; keeps Valid |
| EnetService.ServiceEnet.CreateLobby | src/Services/ServiceEnet.cpp:200-233 | the fields become EnetSpec.CreateLobby of the old state; keeps Valid |
| EnetService.ServiceEnet.OpenHost | src/Services/ServiceEnet.cpp:206-216 | the fields become EnetSpec.OpenHost of the old state |
| EnetService.ServiceEnet.AddCreateRequest | src/Services/ServiceEnet.cpp:230-232 | the context becomes EnetSpec.AddCreateRequest of the old state |
| EnetService.ServiceEnet.JoinLobby | src/Services/ServiceEnet.cpp:294-319 | the fields become EnetSpec.JoinLobby of the old state; keeps Valid |
| EnetService.ServiceEnet.LeaveLobby | src/Services/ServiceEnet.cpp:321-344 | the fields become EnetSpec.LeaveLobby of the old state; keeps Valid |
| EnetService.ServiceEnet.HandleConnect | src/Services/ServiceEnet.cpp:104-123 | the fields become EnetSpec.OnConnect of the old state |
| EnetService.ServiceEnet.HandleDisconnect | src/Services/ServiceEnet.cpp:125-166 | the fields become EnetSpec.OnDisconnect of the old state |
| EnetService.ServiceEnet.CompleteLeave | src/Services/ServiceEnet.cpp:126-133 | the fields become EnetSpec.CompleteLeave of the old state |
| EnetService.ServiceEnet.DropPeer | src/Services/ServiceEnet.cpp:134-166 | the fields become EnetSpec.DropPeer of the old state |
| EnetService.ServiceEnet.LoseHost | src/Services/ServiceEnet.cpp:150-165 | the fields become EnetSpec.LoseHost of the old state |
| EnetService.ServiceEnet.HandleReceive | src/Services/ServiceEnet.cpp:168-176 | the fields become EnetSpec.OnReceive of the old state |
| EnetService.ServiceEnet.HandleEvent | src/Services/ServiceEnet.cpp:102-177 | the fields become EnetSpec.OnEvent of the old state |
| EnetService.ServiceEnet.ConnectMember | src/Services/ServiceEnet.cpp:78-98 | the fields become EnetSpec.ConnectMember of the old state |
| EnetService.ServiceEnet.RunCallbacks | src/Services/ServiceEnet.cpp:71-178 | the member loop and the event loop together take the fields to EnetSpec.RunCallbacks of the old state; keeps Valid |
| EnetService.ServiceEnet.IsPacketAvailable | src/Services/ServiceEnet.cpp:441-463 | returns EnetSpec.IsPacketAvailable of the current state |
| EnetService.ServiceEnet.ReadPacket | src/Services/ServiceEnet.cpp:414-439 | result and new fields are EnetSpec.ReadPacket of the old state |
| EnetService.ServiceEnet.SendPacket | src/Services/ServiceEnet.cpp:396-412 | the fields become EnetSpec.SendPacket of the old state |
| SteamSpec.LobbyTypeOf | src/Services/ServiceSteam.cpp:67-72 | Public, Private and FriendsOnly map to Steam's public, private and friends-only types, each if and only if; never the invisible type |
| SteamSpec.LobbyTypeRoundTrip | src/Services/ServiceSteam.cpp:81-88 | the privacy-to-type mapping is injective and inverted by PrivacyOfLobbyType |
| SteamSpec.Initial | src/Services/ServiceSteam.cpp:7-14 | a new backend has no fetches pending and is Valid |
| SteamSpec.CreateLobby | src/Services/ServiceSteam.cpp:65-79 | one SDK create call with the mapped type and the player limit, and a new pending create request whose handle is kept; nothing else changes (events, handshakes, other handles, fetch lists) |
| SteamSpec.SetLobbyPrivacy | src/Services/ServiceSteam.cpp:81-94 | one SDK call setting the lobby's mapped type; nothing else changes |
| SteamSpec.GetLobbyList | src/Services/ServiceSteam.cpp:104-111 | one SDK list call and a new pending list request whose handle is kept; nothing else changes |
| SteamSpec.FetchLobbyInfo | src/Services/ServiceSteam.cpp:113-125 | one SDK data request; the lobby is remembered, and true returned, exactly when the SDK accepted it |
| SteamSpec.JoinLobby | src/Services/ServiceSteam.cpp:127-136 | one SDK join call and a new pending join request carrying the join's GUID whose handle is kept; nothing else changes |
| SteamSpec.CloseSessions | src/Services/ServiceSteam.cpp:155-161 | a session is closed with every member that has a valid Steam ID, and only with such members |
| SteamSpec.CloseAll | src/Services/ServiceSteam.cpp:553-557 | one session close per lobby member, in order |
| SteamSpec.LeaveAndClose | src/Services/ServiceSteam.cpp:140-161 | without a current Steam lobby nothing happens; otherwise leave that lobby, then close every member's session |
| SteamSpec.LeaveLobby | src/Services/ServiceSteam.cpp:138-165 | without a current Steam lobby nothing happens; otherwise leave and close sessions, and add a leave request already OK; handles, host, fetch lists, events and handshakes are kept |
| SteamSpec.SimulateOutage | src/Services/ServiceSteam.cpp:20-43 | leaves the current Steam lobby and closes every member's session, with no request added |
| SteamSpec.OnLobbyCreated | src/Services/ServiceSteam.cpp:300-320 | on I/O failure or a non-OK result the create request is Error; otherwise OK with the Steam lobby as entry point and the local user as host. No other request changes, and nothing else changes (no calls, events, fetches or handle changes) |
| SteamSpec.OnLobbyJoin | src/Services/ServiceSteam.cpp:380-416 | on failure the join is Error; on success OK with the lobby as entry point, the owner as host, and one Handshake to the owner with the join's GUID. No other request changes, and nothing else changes (no calls, events, fetches or handle changes) |
| SteamSpec.MatchFetches | src/Services/ServiceSteam.cpp:332-346 | after the search loop a lobby awaits data if and only if it is a valid hit whose data request was accepted; one data request is made per valid hit, in order |
| SteamSpec.FriendFetches | src/Services/ServiceSteam.cpp:355-377 | the friends loop adds exactly the accepted lobbies of friends in a game, and never a lobby already waiting; one data request is made per friend in a lobby not yet listed, in order |
| SteamSpec.FriendsScanned | src/Services/ServiceSteam.cpp:349-355 | the friend count -1 scans no friend; a positive count scans that many |
| SteamSpec.MatchFetchesDistinct | src/Services/ServiceSteam.cpp:332-346 | the search loop lists each lobby once when the search result does |
| SteamSpec.OnLobbyListAsWritten | src/Services/ServiceSteam.cpp:322-378 | the code as written: on I/O failure the list is Error; otherwise the list request is never touched |
| SteamSpec.ListDataUpdated | src/Services/ServiceSteam.cpp:418-423 | the list request becomes OK exactly when no lobby data is still awaited |
| SteamSpec.OnLobbyList | src/Services/ServiceSteam.cpp:322-378 | on I/O failure the list is Error and no call is made. Otherwise the calls are the data requests of the search loop then of the friends loop, the awaited lobbies are exactly the accepted hits and friends' lobbies, duplicate-free for distinct hits, and the list is OK at once when none is awaited. Only the awaited list, the calls and the list request change; every other request is kept |
| SteamSpec.FetchResultFor | src/Services/ServiceSteam.cpp:457-491 | a fetch is OK exactly when the lobby's GUID is valid, then carries the lobby as entry point, its GUID and whether the local user owns it; otherwise Error with no info |
| SteamSpec.OnLobbyDataUpdate | src/Services/ServiceSteam.cpp:425-500 | member updates change nothing. An awaited list lobby is removed once and listed if its GUID is valid, and the list becomes OK when none is left; no other request and no handle, host or call changes. A fetched lobby is removed and its result reported, except after an invalid list GUID; a lobby not being fetched reports nothing |
| SteamSpec.DrainingResolvesList | src/Services/ServiceSteam.cpp:418-450 | data arriving for every awaited lobby resolves the list request OK |
| SteamSpec.EmptySearchNeverResolves | src/Services/ServiceSteam.cpp:322-378 | as written, a list with nothing to fetch stays pending through any later data update; corrected, it is OK at once |
| SteamSpec.OnLobbyKicked | src/Services/ServiceSteam.cpp:502-520 | a kick from the current Steam lobby tells the lobby the backend disconnected; any other kick changes nothing |
| SteamSpec.OnLobbyChatUpdate | src/Services/ServiceSteam.cpp:522-565 | only a removal without entry, in the current lobby, acts: the session with that user is closed. A lost host also closes every member's session, leaves the lobby and disconnects the backend; any other user is removed from the lobby. Only calls and lobby events ever change |
| SteamSpec.OnP2PSessionRequest | src/Services/ServiceSteam.cpp:567-597 | a session request is accepted exactly when a current Steam lobby exists and the requester is one of its members |
| SteamSpec.ReliablePacketLimit | src/Services/ServiceSteam.cpp:258-263 | the reliable-packet limit is 1200 bytes |
| SteamService.ServiceSteam.constructor | src/Services/ServiceSteam.cpp:7-14 | the fields hold SteamSpec.Initial; Valid |
| SteamService.ServiceSteam.CreateLobby | src/Services/ServiceSteam.cpp:65-79 | the fields become SteamSpec.CreateLobby of the old state |
| SteamService.ServiceSteam.SetLobbyPrivacy | src/Services/ServiceSteam.cpp:81-94 | the fields become SteamSpec.SetLobbyPrivacy of the old state |
| SteamService.ServiceSteam.GetLobbyList | src/Services/ServiceSteam.cpp:104-111 | the fields become SteamSpec.GetLobbyList of the old state |
| SteamService.ServiceSteam.FetchLobbyInfo | src/Services/ServiceSteam.cpp:113-125 | result and new fields are SteamSpec.FetchLobbyInfo of the old state |
| SteamService.ServiceSteam.JoinLobby | src/Services/ServiceSteam.cpp:127-136 | the fields become SteamSpec.JoinLobby of the old state |
| SteamService.ServiceSteam.LeaveAndClose | src/Services/ServiceSteam.cpp:140-161 | the member loop takes the fields to SteamSpec.LeaveAndClose of the old state |
| SteamService.ServiceSteam.LeaveLobby | src/Services/ServiceSteam.cpp:138-165 | the fields become SteamSpec.LeaveLobby of the old state |
| SteamService.ServiceSteam.SimulateOutage | src/Services/ServiceSteam.cpp:20-43 | the fields become SteamSpec.SimulateOutage of the old state |
| SteamService.ServiceSteam.OnLobbyCreated | src/Services/ServiceSteam.cpp:300-320 | the fields become SteamSpec.OnLobbyCreated of the old state |
| SteamService.ServiceSteam.OnLobbyJoin | src/Services/ServiceSteam.cpp:380-416 | the fields become SteamSpec.OnLobbyJoin of the old state |
| SteamService.ServiceSteam.ListDataUpdated | src/Services/ServiceSteam.cpp:418-423 | the context becomes SteamSpec.ListDataUpdated of the old state |
| SteamService.ServiceSteam.FetchSearchHits | src/Services/ServiceSteam.cpp:332-346 | the search loop's awaited lobbies and SDK calls are SteamSpec.MatchFetches from an empty list |
| SteamService.ServiceSteam.FetchFriendLobby | src/Services/ServiceSteam.cpp:357-376 | one pass of the friends loop is SteamSpec.FriendStep: a friend's lobby not yet awaited is requested, and awaited when accepted |
| SteamService.ServiceSteam.FetchFriendLobbies | src/Services/ServiceSteam.cpp:348-377 | the friends loop's awaited lobbies and SDK calls are SteamSpec.FriendFetches over the scanned friends |
| SteamService.ServiceSteam.OnLobbyList | src/Services/ServiceSteam.cpp:322-378 | the fields become SteamSpec.OnLobbyList of the old state |
| SteamService.ServiceSteam.OnLobbyDataUpdate | src/Services/ServiceSteam.cpp:425-500 | the fields become SteamSpec.OnLobbyDataUpdate of the old state |
| SteamService.ServiceSteam.OnLobbyKicked | src/Services/ServiceSteam.cpp:502-520 | the context becomes SteamSpec.OnLobbyKicked of the old state |
| SteamService.ServiceSteam.OnLobbyChatUpdate | src/Services/ServiceSteam.cpp:522-565 | the fields become SteamSpec.OnLobbyChatUpdate of the old state |
| SteamService.ServiceSteam.OnP2PSessionRequest | src/Services/ServiceSteam.cpp:567-597 | the member scan takes the fields to SteamSpec.OnP2PSessionRequest of the old state |

## Left out

- ENet internals are not modelled: `enet_host_create`, `enet_host_connect` and `enet_host_service` become inputs. A connection attempt always yields a fresh peer handle, drawn from a counter.
- ENet's udp-discovery parameters, the discovered-peer list and `Search` are left out. So are the JSON lobby announcement in `CreateLobby` and the unused `m_applicationName`. Only whether discovery runs is kept.
- ENet `SetRichPresence`, `SetLobbyPrivacy`, `SetLobbyJoinable`, `FetchLobbyInfo` and the lobby-data getters and setters are left out, because their bodies are empty or return constants (src/Services/ServiceEnet.cpp:196-198, 235-241, 288-292, 352-389).
- ENet `GetLobbyList` is left out: it returns before its discovery code (src/Services/ServiceEnet.cpp:243-286).
- ENet `GetLobbyPlayerCount` and `GetLobbyMaxPlayers` are left out: they read ENet's own host counters, which this model does not keep (src/Services/ServiceEnet.cpp:346-361).
- ENet `GetLobbyHost` is left out: it is `AddressToID` of the host peer's address, and dereferences a null host peer when there is none (src/Services/ServiceEnet.cpp:378-381).
- Steam `SetRichPresence`, `SetLobbyJoinable`, `GetType`, `GetUserID`, `GetServiceUserName`, the lobby-data getters and setters, `SendPacket`, `ReadPacket` and `IsPacketAvailable` are left out. Each forwards one call to the Steam SDK and keeps no state (src/Services/ServiceSteam.cpp:45-63, 96-102, 167-256, 265-298).
- Packet memory (`enet_packet_create`, `enet_packet_destroy`, `memcpy`) is not modelled; a packet is its byte sequence.
- Log messages are not modelled.
- `include/Unet/Services/ServiceSteam.h` is not part of this model. The Steam backend's fields are taken to start empty or null.
- The Context, Lobby and MultiCallback classes are not part of this model. Their effects are recorded in `Unet.ContextLog`. Whether a current lobby exists, the lobby's members and the Context's connection status are inputs to each operation.
- EnetSpec.AddressWord: the 64-bit read of an `ENetAddress` assumes a little-endian layout with the port above the host and two padding bytes on top. The padding is an input.
- SteamSpec.FetchResultFor: the `atoi` of `unet-privacy` is taken as an integer input, and the lobby's name and counts are passed through unparsed.
- SteamSpec.CloseSessions: states which sessions are closed, not their order.
- EnetSpec.OnEvent, EnetSpec.ServiceEvents and EnetSpec.RunCallbacks: their own contracts state only validity and the channel count. What one event does is stated by OnConnect, OnDisconnect and OnReceive, and the pump's effect on peers by ServiceEventsKeepsPeersDistinct and ConnectMembersReachesAll.
- EnetSpec.ReadPacket: the source's `assert(false)` on an out-of-range channel is modelled as its release-build behaviour, returning 0. Reading an empty in-range queue is undefined in the source and is a precondition here.
- EnetSpec.IsPacketAvailable: the source's `assert(false)` on an out-of-range channel (src/Services/ServiceEnet.cpp:448) is modelled as its release-build behaviour, returning false.
- Unet.ServiceID.IsValid: taken as `service != NoService`. The definition of `ServiceID::IsValid` is not part of this model.
- SteamSpec.SetLobbyPrivacy, SteamSpec.FetchLobbyInfo and SteamSpec.JoinLobby: the source's asserts that the ID is a Steam ID (src/Services/ServiceSteam.cpp:90, 115, 129) become preconditions.
- EnetSpec.SimulateOutage: as written, `SimulateOutage` leaves a pending join Pending after destroying the host. This is the defect of the second finding. The model applies the same correction and resolves the join as Error; `EnetSpec.DropConnections` is the code as written.
- EnetService.ServiceEnet: its operations require the invariant `Valid` (a pending join waits on a live host and host peer). The constructor establishes it and every corrected operation keeps it. The code as written breaks it, as the Findings show.

## Findings

| source | as written | input that shows it | evidently intended | confidence | as-written member | corrected member |
|---|---|---|---|---|---|---|
| src/Services/ServiceEnet.cpp:306-311 | when the client host cannot be created, `JoinLobby` returns with the new join request still Pending; with no host the pump services nothing, so the join never resolves | `JoinLobby` with `enet_host_create` returning null | resolve the join request as Error | not executed | EnetSpec.JoinWithoutHostStaysPending | EnetSpec.JoinLobby |
| src/Services/ServiceEnet.cpp:125-166 | a DISCONNECT of the host peer while a join is pending (the connection attempt failed) destroys the host but leaves the join Pending; a later `CreateLobby` then has a live host, a pending join and a null host peer, so the first client CONNECT is taken for the lobby host and line 114 dereferences the null host peer | `JoinLobby`, then DISCONNECT of the host peer, then `CreateLobby`, then any CONNECT | resolve a join still waiting on the lost host as Error | not executed | EnetSpec.FailedConnectOrphansJoin | EnetSpec.OnDisconnect |
| src/Services/ServiceEnet.cpp:200-233 | `CreateLobby` resets the host, the host peer and the peers but never touches the join request, so a join still waiting on its host stays Pending beside a live host with a null host peer; the first client CONNECT is then taken for the lobby host and line 114 dereferences the null host peer | `JoinLobby`, then `CreateLobby` before the host answers, then any CONNECT | resolve a join whose host is replaced as Error and release it | not executed | EnetSpec.JoinThenCreateOrphansJoin | EnetSpec.CreateLobby |
| src/Services/ServiceEnet.cpp:210-232 | `CreateLobby` sets the create request OK with an entry point even when `enet_host_create` returned null | `CreateLobby` with the port already bound | report Error when there is no host | not executed | EnetSpec.CreateWithoutHostReportsOK | EnetSpec.CreateLobby |
| src/Services/ServiceSteam.cpp:322-378 | when no search hit and no friend's lobby is awaited, `OnLobbyList` never calls `LobbyListDataUpdated`, and no data update will arrive to do it, so the list request stays Pending | a search with zero matches and no friend in a lobby | resolve the list OK at once when nothing is awaited | not executed | SteamSpec.EmptySearchNeverResolves | SteamSpec.OnLobbyList |
