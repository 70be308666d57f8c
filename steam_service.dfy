/**
  `ServiceSteam` as an object: its own fields updated in place, each operation
  and callback proved to produce the state its SteamSpec function describes.
  Whatever the Steam SDK answers is a parameter.
*/
module SteamService {
  import opened Unet
  import opened SteamSpec

  class ServiceSteam {
    var hostID: Uint64
    var listDataFetch: seq<Uint64>
    var dataFetch: seq<Uint64>
    var requestLobbyCreated: Option<nat>
    var requestLobbyJoin: Option<nat>
    var requestLobbyList: Option<nat>
    var calls: seq<SteamCall>
    var fetched: seq<FetchResult>
    const ctx: Context

    /** The backend's fields together with the Context's log, as one SteamSpec state. */
    function State(): SteamState
      reads this, ctx
    {
      SteamState(hostID, listDataFetch, dataFetch, requestLobbyCreated, requestLobbyJoin, requestLobbyList,
                 ctx.log, calls, fetched)
    }

    predicate Valid()
      reads this, ctx
    {
      SteamSpec.Valid(State())
    }

    constructor (ctx: Context)
      ensures this.ctx == ctx
      ensures State() == Initial().(ctx := ctx.log)
      ensures Valid()
    {
      hostID := 0;
      listDataFetch := [];
      dataFetch := [];
      requestLobbyCreated := None;
      requestLobbyJoin := None;
      requestLobbyList := None;
      calls := [];
      fetched := [];
      this.ctx := ctx;
    }

    method CreateLobby(privacy: LobbyPrivacy, maxPlayers: int)
      requires Valid()
      modifies this, ctx
      ensures State() == SteamSpec.CreateLobby(old(State()), privacy, maxPlayers)
    {
      var lobbyType := LOBBY_TYPE_PUBLIC;
      match privacy {
        case Public => lobbyType := LOBBY_TYPE_PUBLIC;
        case Private => lobbyType := LOBBY_TYPE_PRIVATE;
        case FriendsOnly => lobbyType := LOBBY_TYPE_FRIENDS_ONLY;
      }
      calls := calls + [CreateLobbyCall(lobbyType, maxPlayers)];
      var added := AddRequest(ctx.log, NewRequest(CreateLobbyRequest, Steam, Guid(0)));
      ctx.log := added.0;
      requestLobbyCreated := Some(added.1);
    }

    method SetLobbyPrivacy(lobbyId: ServiceID, privacy: LobbyPrivacy)
      requires lobbyId.service == Steam
      modifies this
      ensures State() == SteamSpec.SetLobbyPrivacy(old(State()), lobbyId, privacy)
    {
      var lobbyType := LOBBY_TYPE_PUBLIC;
      match privacy {
        case Public => lobbyType := LOBBY_TYPE_PUBLIC;
        case Private => lobbyType := LOBBY_TYPE_PRIVATE;
        case FriendsOnly => lobbyType := LOBBY_TYPE_FRIENDS_ONLY;
      }
      calls := calls + [SetLobbyType(lobbyId.id, lobbyType)];
    }

    method GetLobbyList()
      requires Valid()
      modifies this, ctx
      ensures State() == SteamSpec.GetLobbyList(old(State()))
    {
      calls := calls + [RequestLobbyList];
      var added := AddRequest(ctx.log, NewRequest(LobbyListRequest, Steam, Guid(0)));
      ctx.log := added.0;
      requestLobbyList := Some(added.1);
    }

    /** `FetchLobbyInfo`; `accepted` is what `RequestLobbyData` answers. */
    method FetchLobbyInfo(id: ServiceID, accepted: bool) returns (requested: bool)
      requires Valid() && id.service == Steam
      modifies this
      ensures (requested, State()) == SteamSpec.FetchLobbyInfo(old(State()), id, accepted)
    {
      calls := calls + [RequestLobbyData(id.id)];
      if accepted {
        dataFetch := dataFetch + [id.id];
        return true;
      }
      return false;
    }

    method JoinLobby(id: ServiceID, joinGuid: Guid)
      requires Valid() && id.service == Steam
      modifies this, ctx
      ensures State() == SteamSpec.JoinLobby(old(State()), id, joinGuid)
    {
      calls := calls + [JoinLobbyCall(id.id)];
      var added := AddRequest(ctx.log, NewRequest(JoinLobbyRequest, Steam, joinGuid));
      ctx.log := added.0;
      requestLobbyJoin := Some(added.1);
    }

    /** Leaves the current Steam lobby and closes the session with each member that has a Steam ID. */
    method LeaveAndClose(lobby: Option<LobbyView>)
      modifies this
      ensures State() == SteamSpec.LeaveAndClose(old(State()), lobby)
    {
      if lobby.None? || lobby.value.steamEntryPoint.None? {
        return;
      }
      calls := calls + [LeaveLobbyCall(lobby.value.steamEntryPoint.value)];
      var ids := lobby.value.memberSteamIds;
      ghost var start := calls;
      var i := 0;
      while i < |ids|
        invariant i <= |ids|
        invariant calls == start + CloseSessions(ids[..i])
        invariant State() == old(State()).(calls := calls)
      {
        assert ids[..i + 1][..i] == ids[..i];
        if ids[i].Some? {
          calls := calls + [CloseP2PSession(ids[i].value)];
        }
        i := i + 1;
      }
      assert ids[..i] == ids;
    }

    method LeaveLobby(lobby: Option<LobbyView>)
      requires Valid()
      modifies this, ctx
      ensures State() == SteamSpec.LeaveLobby(old(State()), lobby)
    {
      if lobby.None? || lobby.value.steamEntryPoint.None? {
        return;
      }
      LeaveAndClose(lobby);
      var added := AddRequest(ctx.log, NewRequest(LeaveLobbyRequest, Steam, Guid(0)));
      ctx.log := SetCode(added.0, added.1, OK);
    }

    method SimulateOutage(lobby: Option<LobbyView>)
      modifies this
      ensures State() == SteamSpec.SimulateOutage(old(State()), lobby)
    {
      LeaveAndClose(lobby);
    }

    method OnLobbyCreated(ioFailure: bool, eResult: int, lobbyId: Uint64, localUser: Uint64)
      requires Valid() && requestLobbyCreated.Some?
      modifies this, ctx
      ensures State() == SteamSpec.OnLobbyCreated(old(State()), ioFailure, eResult, lobbyId, localUser)
    {
      var c := requestLobbyCreated.value;
      if ioFailure {
        ctx.log := SetCode(ctx.log, c, Error);
        return;
      }
      if eResult != RESULT_OK {
        ctx.log := SetCode(ctx.log, c, Error);
        return;
      }
      hostID := localUser;
      ctx.log := AddEntryPoint(ctx.log, c, ServiceID(Steam, lobbyId));
      ctx.log := SetCode(ctx.log, c, OK);
    }

    method OnLobbyJoin(ioFailure: bool, response: int, lobbyId: Uint64, owner: Uint64)
      requires Valid() && requestLobbyJoin.Some?
      modifies this, ctx
      ensures State() == SteamSpec.OnLobbyJoin(old(State()), ioFailure, response, lobbyId, owner)
    {
      var j := requestLobbyJoin.value;
      if ioFailure {
        ctx.log := SetCode(ctx.log, j, Error);
        return;
      }
      if response != ENTER_RESPONSE_SUCCESS {
        ctx.log := SetCode(ctx.log, j, Error);
        return;
      }
      hostID := owner;
      ctx.log := AddEntryPoint(ctx.log, j, ServiceID(Steam, lobbyId));
      ctx.log := SetCode(ctx.log, j, OK);
      ctx.log := SendHandshake(ctx.log, Handshake(ServiceID(Steam, owner), ctx.log.requests[j].joinGuid));
    }

    method ListDataUpdated()
      requires Valid() && requestLobbyList.Some?
      modifies ctx
      ensures State() == SteamSpec.ListDataUpdated(old(State()))
    {
      if |listDataFetch| == 0 {
        ctx.log := SetCode(ctx.log, requestLobbyList.value, OK);
      }
    }

    /** The search loop: valid lobbies are requested, accepted ones kept. */
    method FetchSearchHits(hits: seq<SearchHit>)
      modifies this
      ensures FetchProgress(listDataFetch, calls) == MatchFetches(FetchProgress([], old(calls)), hits)
      ensures State() == old(State()).(listDataFetch := listDataFetch, calls := calls)
    {
      listDataFetch := [];
      ghost var start := FetchProgress([], calls);
      var i := 0;
      while i < |hits|
        invariant i <= |hits|
        invariant FetchProgress(listDataFetch, calls) == MatchFetches(start, hits[..i])
        invariant State() == old(State()).(listDataFetch := listDataFetch, calls := calls)
      {
        assert hits[..i + 1][..i] == hits[..i];
        var hit := hits[i];
        if hit.valid {
          calls := calls + [RequestLobbyData(hit.id)];
          if hit.accepted {
            listDataFetch := listDataFetch + [hit.id];
          }
        }
        i := i + 1;
      }
      assert hits[..i] == hits;
    }

    /** One pass of the friends loop: a friend's lobby not yet listed is requested, and kept when accepted. */
    method FetchFriendLobby(f: FriendEntry)
      modifies this
      ensures FetchProgress(listDataFetch, calls) == FriendStep(FetchProgress(old(listDataFetch), old(calls)), f)
      ensures State() == old(State()).(listDataFetch := listDataFetch, calls := calls)
    {
      if f.playing && f.gameValid && f.lobbyValid {
        var at := Find(listDataFetch, f.lobby);
        if at == |listDataFetch| {
          calls := calls + [RequestLobbyData(f.lobby)];
          if f.accepted {
            listDataFetch := listDataFetch + [f.lobby];
          }
        }
      }
    }

    /** The friends loop: a friend's lobby not yet listed is requested, and kept when accepted. */
    method FetchFriendLobbies(friendCount: int, friends: seq<FriendEntry>)
      requires friendCount <= |friends|
      modifies this
      ensures FetchProgress(listDataFetch, calls) ==
        FriendFetches(FetchProgress(old(listDataFetch), old(calls)), FriendsScanned(friendCount, friends))
      ensures State() == old(State()).(listDataFetch := listDataFetch, calls := calls)
    {
      ghost var start := FetchProgress(listDataFetch, calls);
      var n := friendCount;
      if n == -1 {
        n := 0;
      }
      var i := 0;
      while i < n
        invariant 0 <= i <= (if n > 0 then n else 0) && n <= |friends|
        invariant FetchProgress(listDataFetch, calls) == FriendFetches(start, friends[..i])
        invariant State() == old(State()).(listDataFetch := listDataFetch, calls := calls)
      {
        FriendFetchesStep(start, friends, i);
        FetchFriendLobby(friends[i]);
        i := i + 1;
      }
      assert friends[..i] == FriendsScanned(friendCount, friends);
    }

    /** `OnLobbyList`, with the list request resolved when nothing is left to fetch. */
    method OnLobbyList(ioFailure: bool, hits: seq<SearchHit>, friendCount: int, friends: seq<FriendEntry>)
      requires Valid() && requestLobbyList.Some? && friendCount <= |friends|
      modifies this, ctx
      ensures State() == SteamSpec.OnLobbyList(old(State()), ioFailure, hits, friendCount, friends)
    {
      if ioFailure {
        ctx.log := SetCode(ctx.log, requestLobbyList.value, Error);
        return;
      }
      FetchSearchHits(hits);
      FetchFriendLobbies(friendCount, friends);
      ListDataUpdated();
    }

    method OnLobbyDataUpdate(memberId: Uint64, lobbyId: Uint64, meta: LobbyMetadata, localUser: Uint64)
      requires Valid()
      modifies this, ctx
      ensures State() == SteamSpec.OnLobbyDataUpdate(old(State()), memberId, lobbyId, meta, localUser)
    {
      if memberId != lobbyId {
        return;
      }
      ghost var s0 := State();
      var inList := Find(listDataFetch, lobbyId);
      if inList < |listDataFetch| {
        listDataFetch := listDataFetch[..inList] + listDataFetch[inList + 1..];
        if !meta.unetGuid.IsValid() {
          ListDataUpdated();
          return;
        }
        ctx.log := AddListedLobby(ctx.log, requestLobbyList.value, meta.unetGuid, ServiceID(Steam, lobbyId));
        ListDataUpdated();
        assert State() == ListDataArrived(s0, lobbyId, meta.unetGuid);
      }
      assert State() == if lobbyId in s0.listDataFetch then ListDataArrived(s0, lobbyId, meta.unetGuid) else s0;
      var inFetch := Find(dataFetch, lobbyId);
      if inFetch < |dataFetch| {
        dataFetch := dataFetch[..inFetch] + dataFetch[inFetch + 1..];
        fetched := fetched + [FetchResultFor(lobbyId, meta, localUser)];
      }
    }

    method OnLobbyKicked(lobby: Option<LobbyView>, kickedFrom: Uint64)
      modifies ctx
      ensures State() == SteamSpec.OnLobbyKicked(old(State()), lobby, kickedFrom)
    {
      if lobby.None? || lobby.value.steamEntryPoint.None? {
        return;
      }
      if lobby.value.steamEntryPoint.value != kickedFrom {
        return;
      }
      ctx.log := Notify(ctx.log, ServiceDisconnected(Steam));
    }

    /** `OnLobbyChatUpdate`; `lobbyMembers` is the SDK's member list of the chat's lobby. */
    method OnLobbyChatUpdate(lobby: Option<LobbyView>, chatLobby: Uint64, userChanged: Uint64,
                             flags: bv32, lobbyMembers: seq<Uint64>)
      modifies this, ctx
      ensures State() == SteamSpec.OnLobbyChatUpdate(old(State()), lobby, chatLobby, userChanged, flags, lobbyMembers)
    {
      if lobby.None? || lobby.value.steamEntryPoint.None? {
        return;
      }
      if lobby.value.steamEntryPoint.value != chatLobby {
        return;
      }
      if flags & CHAT_MEMBER_ENTERED != 0 {
        return;
      }
      if flags & (CHAT_MEMBER_LEFT | CHAT_MEMBER_DISCONNECTED | CHAT_MEMBER_KICKED | CHAT_MEMBER_BANNED) == 0 {
        return;
      }
      calls := calls + [CloseP2PSession(userChanged)];
      if hostID == userChanged {
        ghost var start := calls;
        var i := 0;
        while i < |lobbyMembers|
          invariant i <= |lobbyMembers|
          invariant calls == start + CloseAll(lobbyMembers[..i])
          invariant State() == old(State()).(calls := calls)
        {
          assert CloseAll(lobbyMembers[..i + 1]) == CloseAll(lobbyMembers[..i]) + [CloseP2PSession(lobbyMembers[i])];
          calls := calls + [CloseP2PSession(lobbyMembers[i])];
          i := i + 1;
        }
        assert lobbyMembers[..i] == lobbyMembers;
        calls := calls + [LeaveLobbyCall(chatLobby)];
        ctx.log := Notify(ctx.log, ServiceDisconnected(Steam));
      } else {
        ctx.log := Notify(ctx.log, RemoveMemberService(ServiceID(Steam, userChanged)));
      }
    }

    /** `OnP2PSessionRequest`: scans the lobby's members for the remote user. */
    method OnP2PSessionRequest(lobby: Option<LobbyView>, lobbyMembers: seq<Uint64>, remote: Uint64)
      modifies this
      ensures State() == SteamSpec.OnP2PSessionRequest(old(State()), lobby, lobbyMembers, remote)
    {
      if lobby.None? || lobby.value.steamEntryPoint.None? {
        return;
      }
      var i := 0;
      while i < |lobbyMembers|
        invariant i <= |lobbyMembers|
        invariant remote !in lobbyMembers[..i]
      {
        if lobbyMembers[i] == remote {
          calls := calls + [AcceptP2PSession(remote)];
          return;
        }
        assert lobbyMembers[..i + 1] == lobbyMembers[..i] + [lobbyMembers[i]];
        i := i + 1;
      }
      assert lobbyMembers[..i] == lobbyMembers;
    }
  }
}
