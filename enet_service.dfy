/**
  `ServiceEnet` as an object: the fields the source keeps, updated in place,
  with each operation proved to produce the state its EnetSpec function
  describes. Outcomes that ENet decides (whether `enet_host_create` succeeds,
  which events `enet_host_service` reports) and facts read from the Context
  (the current lobby, its members, the connection status) are parameters.
*/
module EnetService {
  import opened Unet
  import opened EnetSpec

  /** The statics of `ServiceEnet`, shared by every instance. */
  class EnetIdentity {
    var localUserName: string
    var macAddress: Uint64

    constructor ()
      ensures localUserName == [] && macAddress == 0
    {
      localUserName := [];
      macAddress := 0;
    }

    method SetLocalUsername(name: string)
      modifies this
      ensures localUserName == name && macAddress == old(macAddress)
    {
      localUserName := name;
    }

    method SetLocalMacAddress(address: Uint64)
      modifies this
      ensures macAddress == address && localUserName == old(localUserName)
    {
      macAddress := address;
    }
  }

  class ServiceEnet {
    var host: bool
    var peerHost: Option<Peer>
    var peers: seq<Peer>
    var channels: seq<seq<EnetPacket>>
    var requestLobbyJoin: Option<nat>
    var requestLobbyLeft: Option<nat>
    var waitingForPeers: bool
    var searching: bool
    var nextPeer: nat
    var calls: seq<EnetCall>
    const numChannels: nat
    const defaultPort: Uint16
    const ctx: Context
    const identity: EnetIdentity

    /** The backend's fields together with the Context's log, as one EnetSpec state. */
    function State(): EnetState
      reads this, ctx
    {
      EnetState(host, peerHost, peers, channels, requestLobbyJoin, requestLobbyLeft,
                waitingForPeers, searching, numChannels, defaultPort, nextPeer, ctx.log, calls)
    }

    predicate Valid()
      reads this, ctx
    {
      EnetSpec.Valid(State())
    }

    constructor (ctx: Context, numChannels: nat, defaultPort: Uint16, identity: EnetIdentity)
      ensures this.ctx == ctx && this.identity == identity
      ensures State() == Initial(numChannels, defaultPort).(ctx := ctx.log)
      ensures Valid()
    {
      host := false;
      peerHost := None;
      peers := [];
      channels := [];
      requestLobbyJoin := None;
      requestLobbyLeft := None;
      waitingForPeers := false;
      searching := false;
      nextPeer := 0;
      calls := [];
      this.numChannels := numChannels;
      this.defaultPort := defaultPort;
      this.ctx := ctx;
      this.identity := identity;
    }

    /** `GetType`. */
    function GetType(): (t: ServiceType)
      ensures t == Enet
    {
      Enet
    }

    /** `GetUserID`: the local user is `(Enet, 0)`, the ID every peer resolves to its host peer. */
    function GetUserID(): (id: ServiceID)
      reads this, ctx
      ensures id == ServiceID(Enet, 0)
      ensures id.service == GetType() && id.IsValid()
      ensures EnetSpec.GetPeer(State(), id) == peerHost
    {
      ServiceID(Enet, 0)
    }

    /** `GetServiceUserName`: the name last given to `SetLocalUsername`. */
    function GetServiceUserName(): (name: string)
      reads identity
      ensures name == identity.localUserName
    {
      identity.localUserName
    }

    /** `Clear`: rebuilds the channel list as `n` empty queues, one at a time. */
    method Clear(n: nat)
      modifies this
      ensures State() == ClearChannels(old(State()), n)
    {
      var queues: seq<seq<EnetPacket>> := [];
      var i := 0;
      while i < n
        invariant i <= n
        invariant |queues| == i
        invariant forall k :: 0 <= k < i ==> queues[k] == []
      {
        queues := queues + [[]];
        i := i + 1;
      }
      channels := queues;
    }

    method StartSearch()
      modifies this
      ensures State() == EnetSpec.StartSearch(old(State()))
    {
      if !searching {
        calls := calls + [DiscoveryStart];
        searching := true;
      }
    }

    method StopSearch()
      modifies this
      ensures State() == EnetSpec.StopSearch(old(State()))
    {
      if searching {
        calls := calls + [DiscoveryStop];
        searching := false;
      }
    }

    /** `GetPeer`: the host peer for `(valid, 0)`, else a linear scan of the peer list. */
    method GetPeer(id: ServiceID) returns (p: Option<Peer>)
      ensures p == EnetSpec.GetPeer(State(), id)
    {
      if id.IsValid() && id.id == 0 {
        return peerHost;
      }
      var i := 0;
      while i < |peers|
        invariant i <= |peers|
        invariant FirstPeerWithId(peers, id) == FirstPeerWithId(peers[i..], id)
      {
        if AddressToID(peers[i].address) == id {
          return Some(peers[i]);
        }
        assert peers[i..][1..] == peers[i + 1..];
        i := i + 1;
      }
      return None;
    }

    /** A join left pending without a live host and host peer is resolved Error and released. */
    method ReleaseOrphanedJoin()
      requires WellFormed(State())
      modifies this, ctx
      ensures State() == EnetSpec.ReleaseOrphanedJoin(old(State()))
    {
      if requestLobbyJoin.Some? && ctx.log.requests[requestLobbyJoin.value].code != OK && !(host && peerHost.Some?) {
        ctx.log := SetCode(ctx.log, requestLobbyJoin.value, Error);
        requestLobbyJoin := None;
      }
    }

    /** `enet_peer_disconnect_now` for each of `ps`, in order. */
    method DisconnectPeersNow(ps: seq<Peer>)
      modifies this
      ensures State() == old(State()).(calls := old(calls) + DisconnectAll(ps))
    {
      var i := 0;
      while i < |ps|
        invariant i <= |ps|
        invariant State() == old(State()).(calls := old(calls) + DisconnectAll(ps[..i]))
      {
        assert DisconnectAll(ps[..i + 1]) == DisconnectAll(ps[..i]) + [PeerDisconnectNow(ps[i])];
        calls := calls + [PeerDisconnectNow(ps[i])];
        i := i + 1;
      }
      assert ps[..i] == ps;
    }

    method SimulateOutage()
      requires Valid()
      modifies this, ctx
      ensures State() == EnetSpec.SimulateOutage(old(State()))
      ensures Valid()
    {
      DisconnectPeersNow(peers);
      peers := [];
      if host {
        calls := calls + [HostDestroy];
      }
      host := false;
      peerHost := None;
      ReleaseOrphanedJoin();
    }

    /** `CreateLobby`; `hostCreated` is whether `enet_host_create` succeeded. */
    method CreateLobby(maxPlayers: int, hostCreated: bool, padding: Uint16)
      requires Valid()
      modifies this, ctx
      ensures State() == EnetSpec.CreateLobby(old(State()), maxPlayers, hostCreated, padding)
      ensures Valid()
    {
      var addr := Address(HOST_ANY, defaultPort, padding);
      OpenHost(addr, maxPlayers, hostCreated);
      AddCreateRequest(AddressToID(addr));
      ReleaseOrphanedJoin();
    }

    method OpenHost(addr: Address, maxPlayers: int, hostCreated: bool)
      requires WellFormed(State()) && addr == BindAddress(State(), addr.padding)
      modifies this
      ensures State() == EnetSpec.OpenHost(old(State()), maxPlayers, hostCreated, addr.padding)
    {
      var maxChannels := numChannels + RESERVED_CHANNELS;
      Clear(maxChannels);
      calls := calls + [HostCreate(Some(addr), maxPlayers, maxChannels)];
      host := hostCreated;
      peerHost := None;
      peers := [];
      waitingForPeers := false;
      StopSearch();
    }

    method AddCreateRequest(entryPoint: ServiceID)
      requires WellFormed(State())
      modifies ctx
      ensures State() == EnetSpec.AddCreateRequest(old(State()), entryPoint)
    {
      var added := AddRequest(ctx.log, NewRequest(CreateLobbyRequest, Enet, Guid(0)));
      var req := added.1;
      ctx.log := added.0;
      if host {
        ctx.log := AddEntryPoint(ctx.log, req, entryPoint);
        ctx.log := SetCode(ctx.log, req, OK);
      } else {
        ctx.log := SetCode(ctx.log, req, Error);
      }
    }

    /** `JoinLobby`; `joinGuid` is the one the Context gave the join request. */
    method JoinLobby(id: ServiceID, joinGuid: Guid, hostCreated: bool)
      requires Valid() && id.service == Enet
      modifies this, ctx
      ensures State() == EnetSpec.JoinLobby(old(State()), id, joinGuid, hostCreated)
      ensures Valid()
    {
      var added := AddRequest(ctx.log, NewRequest(JoinLobbyRequest, Enet, joinGuid));
      ctx.log := added.0;
      requestLobbyJoin := Some(added.1);
      var addr := IdToAddress(id.id);
      var maxChannels := numChannels + RESERVED_CHANNELS;
      Clear(maxChannels);
      calls := calls + [HostCreate(None, JOIN_PEER_COUNT, maxChannels)];
      host := hostCreated;
      if hostCreated {
        var p := Peer(nextPeer, addr);
        nextPeer := nextPeer + 1;
        calls := calls + [PeerConnect(p, maxChannels)];
        peerHost := Some(p);
        peers := [p];
        waitingForPeers := true;
      }
      ReleaseOrphanedJoin();
    }

    /** `LeaveLobby`; `hasLobby` is whether the Context has a current lobby. */
    method LeaveLobby(hasLobby: bool)
      requires Valid()
      modifies this, ctx
      ensures State() == EnetSpec.LeaveLobby(old(State()), hasLobby)
      ensures Valid()
    {
      var added := AddRequest(ctx.log, NewRequest(LeaveLobbyRequest, Enet, Guid(0)));
      ctx.log := added.0;
      requestLobbyLeft := Some(added.1);
      StopSearch();
      if peerHost.Some? {
        calls := calls + [PeerDisconnect(peerHost.value)];
      } else {
        calls := calls + [HostDestroy];
        host := false;
        ctx.log := SetCode(ctx.log, added.1, OK);
        requestLobbyLeft := None;
        if hasLobby {
          ctx.log := Notify(ctx.log, ServiceDisconnected(Enet));
        }
      }
    }

    method HandleConnect(peer: Peer)
      requires Valid()
      modifies this, ctx
      ensures State() == OnConnect(old(State()), peer)
    {
      if requestLobbyJoin.Some? && ctx.log.requests[requestLobbyJoin.value].code != OK {
        var j := requestLobbyJoin.value;
        var guid := ctx.log.requests[j].joinGuid;
        ctx.log := SetCode(ctx.log, j, OK);
        ctx.log := AddEntryPoint(ctx.log, j, AddressToID(peer.address));
        ctx.log := SendHandshake(ctx.log, Handshake(AddressToID(peerHost.value.address), guid));
      } else {
        var i := Find(peers, peer);
        if i == |peers| {
          peers := peers + [peer];
        }
      }
    }

    method HandleDisconnect(peer: Peer, hasLobby: bool)
      requires Valid()
      modifies this, ctx
      ensures State() == OnDisconnect(old(State()), peer, hasLobby)
    {
      if requestLobbyLeft.Some? && ctx.log.requests[requestLobbyLeft.value].code != OK {
        CompleteLeave();
      } else {
        DropPeer(peer, hasLobby);
      }
      ReleaseOrphanedJoin();
    }

    method CompleteLeave()
      requires LeavePending(State())
      modifies this, ctx
      ensures State() == EnetSpec.CompleteLeave(old(State()))
    {
      calls := calls + [HostDestroy];
      host := false;
      peerHost := None;
      ctx.log := SetCode(ctx.log, requestLobbyLeft.value, OK);
      requestLobbyLeft := None;
    }

    method DropPeer(peer: Peer, hasLobby: bool)
      modifies this, ctx
      ensures State() == EnetSpec.DropPeer(old(State()), peer, hasLobby)
    {
      var i := Find(peers, peer);
      if i < |peers| {
        peers := peers[..i] + peers[i + 1..];
      }
      if hasLobby {
        ctx.log := Notify(ctx.log, RemoveMemberService(AddressToID(peer.address)));
      }
      if Some(peer) == peerHost {
        LoseHost(hasLobby);
      }
    }

    method LoseHost(hasLobby: bool)
      modifies this, ctx
      ensures State() == EnetSpec.LoseHost(old(State()), hasLobby)
    {
      DisconnectPeersNow(peers);
      peers := [];
      calls := calls + [HostDestroy];
      host := false;
      peerHost := None;
      if hasLobby {
        ctx.log := Notify(ctx.log, ServiceDisconnected(Enet));
      }
    }

    method HandleReceive(peer: Peer, channelID: Uint8, packet: Packet)
      modifies this
      ensures State() == OnReceive(old(State()), peer, channelID, packet)
    {
      if channelID < |channels| {
        channels := channels[channelID := channels[channelID] + [EnetPacket(packet, peer)]];
      }
    }

    method HandleEvent(ev: EnetEvent, hasLobby: bool)
      requires Valid()
      modifies this, ctx
      ensures State() == OnEvent(old(State()), ev, hasLobby)
    {
      match ev
      case ConnectEvent(p) => HandleConnect(p);
      case DisconnectEvent(p) => HandleDisconnect(p, hasLobby);
      case ReceiveEvent(p, c, packet) => HandleReceive(p, c, packet);
    }

    /** One member of the connect loop: a fresh peer unless the member is skipped. */
    method ConnectMember(m: Member, localPeer: int)
      requires Valid()
      modifies this
      ensures State() == EnetSpec.ConnectMember(old(State()), m, localPeer)
    {
      if m.unetPeer == localPeer || m.enetId.None? {
        return;
      }
      var existing := GetPeer(ServiceID(Enet, m.enetId.value));
      if existing.Some? {
        return;
      }
      var p := Peer(nextPeer, IdToAddress(m.enetId.value));
      nextPeer := nextPeer + 1;
      peers := peers + [p];
      calls := calls + [PeerConnect(p, |channels|)];
    }

    /**
      `RunCallbacks`: a joining client that sees the lobby connected connects to
      the other members, then the events are serviced while the host lives.
    */
    method RunCallbacks(connected: bool, members: seq<Member>, localPeer: int,
                        hasLobby: bool, events: seq<EnetEvent>)
      requires Valid()
      modifies this, ctx
      ensures State() == EnetSpec.RunCallbacks(old(State()), connected, members, localPeer, hasLobby, events)
      ensures Valid()
    {
      if host && waitingForPeers && connected {
        waitingForPeers := false;
        ghost var start := State();
        var i := 0;
        assert members[i..] == members;
        while i < |members|
          invariant i <= |members|
          invariant Valid()
          invariant ConnectMembers(State(), members[i..], localPeer) == ConnectMembers(start, members, localPeer)
        {
          assert members[i..][1..] == members[i + 1..];
          ConnectMember(members[i], localPeer);
          i := i + 1;
        }
      }
      ghost var pumped := State();
      var k := 0;
      assert events[k..] == events;
      while host && k < |events|
        invariant k <= |events|
        invariant Valid()
        invariant ServiceEvents(State(), events[k..], hasLobby) == ServiceEvents(pumped, events, hasLobby)
      {
        assert events[k..][1..] == events[k + 1..];
        HandleEvent(events[k], hasLobby);
        k := k + 1;
      }
    }

    method IsPacketAvailable(channel: Uint8) returns (r: Availability)
      ensures r == EnetSpec.IsPacketAvailable(State(), channel)
    {
      if !host {
        return Availability(false, None);
      }
      if channel >= |channels| {
        return Availability(false, None);
      }
      if |channels[channel]| == 0 {
        return Availability(false, None);
      }
      return Availability(true, Some(|channels[channel][0].packet.data|));
    }

    method ReadPacket(maxSize: nat, channel: Uint8) returns (r: ReadResult)
      requires channel < |channels| ==> channels[channel] != []
      modifies this
      ensures (r, State()) == EnetSpec.ReadPacket(old(State()), maxSize, channel)
    {
      if channel >= |channels| {
        return ReadResult(0, [], None);
      }
      var front := channels[channel][0];
      var actualSize := Min(|front.packet.data|, maxSize);
      var sender := if Some(front.peer) == peerHost then ServiceID(Enet, 0) else AddressToID(front.peer.address);
      channels := channels[channel := channels[channel][1..]];
      return ReadResult(actualSize, front.packet.data[..actualSize], Some(sender));
    }

    method SendPacket(peerId: ServiceID, data: seq<bv8>, kind: PacketType, channel: Uint8)
      modifies this
      ensures State() == EnetSpec.SendPacket(old(State()), peerId, data, kind, channel)
    {
      var peer := GetPeer(peerId);
      if peer.None? {
        return;
      }
      var flags := PACKET_FLAG_RELIABLE;
      if kind == Unreliable {
        flags := 0;
      }
      calls := calls + [PeerSend(peer.value, channel, Packet(data), flags)];
    }
  }
}
