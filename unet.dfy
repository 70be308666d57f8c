/**
  Value types shared by the network backends, and a stand-in for the parts of
  the orchestrating Context that a backend talks to.

  The Context, the Lobby and the request correlator (MultiCallback) are not part
  of this model. A backend only ever (a) adds a request to one of the Context's
  correlators and later sets that request's code and payload, (b) tells the
  current Lobby that a member lost a backend identity or that the whole backend
  disconnected, and (c) asks the Context to send a Handshake control message.
  `ContextLog` records exactly those three kinds of effect, so that what a
  backend does to its collaborators is observable in the model.
*/
module Unet {

  datatype Option<T> = None | Some(value: T)

  type Uint8 = x: int | 0 <= x < 0x100
  type Uint16 = x: int | 0 <= x < 0x1_0000
  type Uint32 = x: int | 0 <= x < 0x1_0000_0000
  type Uint64 = x: int | 0 <= x < 0x1_0000_0000_0000_0000

  /** The backend kinds the shown code names; `NoService` (ServiceType::None) is the kind of an empty ServiceID. */
  datatype ServiceType = NoService | Steam | Enet

  /** A (backend kind, 64-bit handle) pair. */
  datatype ServiceID = ServiceID(service: ServiceType, id: Uint64) {
    /** A ServiceID is valid once it names a backend kind. */
    predicate IsValid() {
      service != NoService
    }
  }

  /** Completion code of one backend's share of a logical operation. */
  datatype Code = Pending | OK | Error

  /** A 128-bit session identifier; the all-zero value is the invalid one. */
  datatype Guid = Guid(value: nat) {
    predicate IsValid() {
      value != 0
    }
  }

  /** Which of the Context's four correlators a request was added to. */
  datatype RequestKind = CreateLobbyRequest | JoinLobbyRequest | LeaveLobbyRequest | LobbyListRequest

  /** A lobby found by a list request, keyed by its session identifier. */
  datatype ListedLobby = ListedLobby(guid: Guid, entryPoint: ServiceID)

  /**
    One backend's request in a correlator: its code, and what this backend
    contributed to the shared result (entry points of a created or joined lobby,
    lobbies found by a list request). `joinGuid` is the correlation identifier
    the Context chose for a join; the other kinds leave it unused.
  */
  datatype ServiceRequest = ServiceRequest(
    kind: RequestKind,
    service: ServiceType,
    code: Code,
    joinGuid: Guid,
    entryPoints: seq<ServiceID>,
    listed: seq<ListedLobby>)

  /** A fresh, pending request as `AddServiceRequest` hands it out. */
  function NewRequest(kind: RequestKind, service: ServiceType, joinGuid: Guid): (r: ServiceRequest)
    ensures r.code == Pending && r.entryPoints == [] && r.listed == []
    ensures r.kind == kind && r.service == service
  {
    ServiceRequest(kind, service, Pending, joinGuid, [], [])
  }

  /** What a backend tells the current Lobby. */
  datatype LobbyEvent =
    | RemoveMemberService(id: ServiceID)
    | ServiceDisconnected(service: ServiceType)

  /** The Handshake control message a joining backend asks the Context to send. */
  datatype Handshake = Handshake(to: ServiceID, joinGuid: Guid)

  /** Everything a backend has done to the Context, in order. */
  datatype ContextLog = ContextLog(
    requests: seq<ServiceRequest>,
    lobbyEvents: seq<LobbyEvent>,
    handshakes: seq<Handshake>)

  const EmptyContextLog: ContextLog := ContextLog([], [], [])

  /** `AddServiceRequest`: the new request's handle is its index in the log. */
  function AddRequest(log: ContextLog, r: ServiceRequest): (result: (ContextLog, nat))
    ensures result.1 == |log.requests|
    ensures result.0.requests == log.requests + [r]
    ensures result.0.lobbyEvents == log.lobbyEvents && result.0.handshakes == log.handshakes
  {
    (log.(requests := log.requests + [r]), |log.requests|)
  }

  /** Sets the code of request `i`, leaving its payload alone. */
  function SetCode(log: ContextLog, i: nat, c: Code): (result: ContextLog)
    requires i < |log.requests|
    ensures |result.requests| == |log.requests|
    ensures result.requests[i] == log.requests[i].(code := c)
    ensures forall j :: 0 <= j < |log.requests| && j != i ==> result.requests[j] == log.requests[j]
    ensures result.lobbyEvents == log.lobbyEvents && result.handshakes == log.handshakes
  {
    log.(requests := log.requests[i := log.requests[i].(code := c)])
  }

  /** `Data->...->AddEntryPoint(id)` on request `i`. */
  function AddEntryPoint(log: ContextLog, i: nat, id: ServiceID): (result: ContextLog)
    requires i < |log.requests|
    ensures |result.requests| == |log.requests|
    ensures result.requests[i] == log.requests[i].(entryPoints := log.requests[i].entryPoints + [id])
    ensures forall j :: 0 <= j < |log.requests| && j != i ==> result.requests[j] == log.requests[j]
    ensures result.lobbyEvents == log.lobbyEvents && result.handshakes == log.handshakes
  {
    var r := log.requests[i];
    log.(requests := log.requests[i := r.(entryPoints := r.entryPoints + [id])])
  }

  /** `Data->AddEntryPoint(guid, id)` on list request `i`. */
  function AddListedLobby(log: ContextLog, i: nat, guid: Guid, id: ServiceID): (result: ContextLog)
    requires i < |log.requests|
    ensures |result.requests| == |log.requests|
    ensures result.requests[i] == log.requests[i].(listed := log.requests[i].listed + [ListedLobby(guid, id)])
    ensures forall j :: 0 <= j < |log.requests| && j != i ==> result.requests[j] == log.requests[j]
    ensures result.lobbyEvents == log.lobbyEvents && result.handshakes == log.handshakes
  {
    var r := log.requests[i];
    log.(requests := log.requests[i := r.(listed := r.listed + [ListedLobby(guid, id)])])
  }

  function Notify(log: ContextLog, e: LobbyEvent): ContextLog {
    log.(lobbyEvents := log.lobbyEvents + [e])
  }

  function SendHandshake(log: ContextLog, h: Handshake): ContextLog {
    log.(handshakes := log.handshakes + [h])
  }

  /** The elements of `s` are pairwise distinct. */
  predicate NoDuplicates<T(==)>(s: seq<T>) {
    forall i, j :: 0 <= i < j < |s| ==> s[i] != s[j]
  }

  /** Position of the first occurrence of `x` in `s`. */
  function FirstIndex<T(==)>(s: seq<T>, x: T): (i: nat)
    requires x in s
    ensures i < |s| && s[i] == x && x !in s[..i]
  {
    if s[0] == x then 0 else 1 + FirstIndex(s[1..], x)
  }

  /** `v.erase(std::find(v.begin(), v.end(), x))` when `x` is present; `s` otherwise. */
  function RemoveFirst<T(==)>(s: seq<T>, x: T): (r: seq<T>)
    ensures x !in s ==> r == s
    ensures x in s ==> r == s[..FirstIndex(s, x)] + s[FirstIndex(s, x) + 1..]
    ensures x in s ==> multiset(r) == multiset(s) - multiset{x}
  {
    if x in s then
      var i := FirstIndex(s, x);
      assert s == s[..i] + [s[i]] + s[i + 1..];
      s[..i] + s[i + 1..]
    else
      s
  }

  /** After removing the first `x`, position `k` holds what was at `k`, or at `k + 1` from that `x` on. */
  lemma RemoveFirstShifts<T>(s: seq<T>, x: T)
    requires x in s
    ensures var i := FirstIndex(s, x);
      forall k :: 0 <= k < |RemoveFirst(s, x)| ==> RemoveFirst(s, x)[k] == s[if k < i then k else k + 1]
  {
  }

  /** Removing an element keeps the remaining ones pairwise distinct. */
  lemma RemoveFirstKeepsNoDuplicates<T>(s: seq<T>, x: T)
    requires NoDuplicates(s)
    ensures NoDuplicates(RemoveFirst(s, x))
    ensures x !in RemoveFirst(s, x)
  {
    if x in s {
      var i := FirstIndex(s, x);
      var r := RemoveFirst(s, x);
      RemoveFirstShifts(s, x);
      forall a, b | 0 <= a < b < |r|
        ensures r[a] != r[b]
      {
        assert r[a] == s[if a < i then a else a + 1];
        assert r[b] == s[if b < i then b else b + 1];
      }
      forall k | 0 <= k < |r|
        ensures r[k] != x
      {
        assert r[k] == s[if k < i then k else k + 1];
      }
    }
  }

  /** `std::find`: the index of the first `x` in `s`, or `|s|` (the end iterator) when absent. */
  method Find<T(==)>(s: seq<T>, x: T) returns (i: nat)
    ensures i <= |s|
    ensures i == |s| <==> x !in s
    ensures i < |s| ==> i == FirstIndex(s, x)
  {
    i := 0;
    while i < |s| && s[i] != x
      invariant i <= |s|
      invariant x !in s[..i]
    {
      assert s[..i + 1] == s[..i] + [s[i]];
      i := i + 1;
    }
    if i < |s| {
      FirstIndexUnique(s, x, i);
    } else {
      assert s[..i] == s;
    }
  }

  /** The first occurrence is the only index with no earlier occurrence. */
  lemma {:induction false} FirstIndexUnique<T>(s: seq<T>, x: T, i: nat)
    requires i < |s| && s[i] == x && x !in s[..i]
    ensures FirstIndex(s, x) == i
  {
    if i > 0 {
      assert s[0] in s[..i];
      assert s[1..][i - 1] == x;
      assert s[1..][..i - 1] == s[1..i];
      assert forall k :: 0 <= k < i - 1 ==> s[1..][k] == s[..i][k + 1];
      FirstIndexUnique(s[1..], x, i - 1);
    }
  }

  /**
    The Context's side of a backend: the one object both backends write into.
    Every request added, Lobby notification raised and Handshake sent goes into `log`.
  */
  class Context {
    var log: ContextLog

    constructor ()
      ensures log == EmptyContextLog
    {
      log := EmptyContextLog;
    }
  }
}
