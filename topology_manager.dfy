/** The topology manager module of the controller: it correlates its
    sub-requests with the transaction that caused them (fan-out / fan-in), runs
    the handshake once every answer is in, and trims links on peer-list
    responses. Outbound requests go to `outbox`; registerCBT appends one and
    returns its position as the new transaction's uid. */
module TopologyManager {
  import opened Messages
  import opened PeerPolicy
  import opened Handshake

  /** The five queries a connection message fans out to, in issue order. */
  function FanOutRequests(peerUid: string): seq<Request>
  {
    [Request(Watchdog, "QUERY_IPOP_STATE", NoData),
     Request(AddressMapper, "RESOLVE", Text(peerUid)),
     Request(AddressMapper, "QUERY_IP_MAP", NoData),
     Request(Monitor, "QUERY_CONN_STAT", Text(peerUid)),
     Request(Monitor, "QUERY_PEER_LIST", NoData)]
  }

  /** No dependency list holds `uid`: the transaction is not a response to one of ours. */
  ghost predicate Unmapped(m: map<Id, seq<Id>>, uid: Id)
  {
    forall s :: s in m ==> uid !in m[s]
  }

  /** No sub-transaction id belongs to two dependency lists. */
  ghost predicate Disjoint(m: map<Id, seq<Id>>)
  {
    forall s1, s2, x :: s1 in m && s2 in m && x in m[s1] && x in m[s2] ==> s1 == s2
  }

  /** The correlation invariant on values: every originating transaction is
      pending, every sub-request id is below `issued` (was issued already), and
      no sub-request belongs to two originating transactions. */
  ghost predicate Correlated(m: map<Id, seq<Id>>, pending: map<Id, Cbt>, issued: nat)
  {
    && (forall s :: s in m ==> s in pending)
    && (forall s, x :: s in m && x in m[s] ==> x < issued)
    && Disjoint(m)
  }

  /** Fan-out keeps the invariant: five ids from `issued` on are fresh. */
  lemma FanOutCorrelated(m: map<Id, seq<Id>>, pending: map<Id, Cbt>, issued: nat, cbt: Cbt)
    requires Correlated(m, pending, issued)
    ensures Correlated(m[cbt.uid := [issued, issued + 1, issued + 2, issued + 3, issued + 4]],
                       pending[cbt.uid := cbt], issued + 5)
  {
    var ids := [issued, issued + 1, issued + 2, issued + 3, issued + 4];
    var m' := m[cbt.uid := ids];
    forall s1, s2, x | s1 in m' && s2 in m' && x in m'[s1] && x in m'[s2] ensures s1 == s2 {
      if s1 != cbt.uid && s2 != cbt.uid {
        assert x in m[s1] && x in m[s2];
      }
    }
  }

  /** Storing a response and issuing more requests keeps the invariant. */
  lemma StoreCorrelated(m: map<Id, seq<Id>>, pending: map<Id, Cbt>, issued: nat, cbt: Cbt, issued': nat)
    requires Correlated(m, pending, issued) && issued <= issued'
    ensures Correlated(m, pending[cbt.uid := cbt], issued')
  {
  }

  /** checkMapping: the originating transaction whose dependency list holds `uid`. */
  method FindSource(mappings: map<Id, seq<Id>>, uid: Id) returns (src: Option<Id>)
    ensures src.Some? ==> src.value in mappings && uid in mappings[src.value]
    ensures src.None? <==> Unmapped(mappings, uid)
  {
    var keys := mappings.Keys;
    while keys != {}
      invariant keys <= mappings.Keys
      invariant forall s :: s in mappings && s !in keys ==> uid !in mappings[s]
      decreases keys
    {
      var s :| s in keys;
      if uid in mappings[s] {
        return Some(s);
      }
      keys := keys - {s};
    }
    return None;
  }

  /** The data the unpacking loop leaves for `action`: that of the last
      response in `keys` with that action (each match overwrites the last). */
  function Collect(keys: seq<Id>, pending: map<Id, Cbt>, action: string): Option<Data>
    requires forall j :: 0 <= j < |keys| ==> keys[j] in pending
  {
    if keys == [] then None
    else if pending[keys[|keys| - 1]].action == action then Some(pending[keys[|keys| - 1]].data)
    else Collect(keys[..|keys| - 1], pending, action)
  }

  /** The unpacking loop finds a value for `action` exactly when some response
      has that action, and then it is the data of the last such response. */
  lemma {:induction false} CollectLastWins(keys: seq<Id>, pending: map<Id, Cbt>, action: string, j: nat)
    requires forall l :: 0 <= l < |keys| ==> keys[l] in pending
    requires j < |keys| && pending[keys[j]].action == action
    requires forall l :: j < l < |keys| ==> pending[keys[l]].action != action
    ensures Collect(keys, pending, action) == Some(pending[keys[j]].data)
  {
    if j < |keys| - 1 {
      var init := keys[..|keys| - 1];
      assert forall l :: 0 <= l < |init| ==> init[l] == keys[l];
      CollectLastWins(init, pending, action, j);
    }
  }

  lemma {:induction false} CollectNone(keys: seq<Id>, pending: map<Id, Cbt>, action: string)
    requires forall l :: 0 <= l < |keys| ==> keys[l] in pending
    ensures Collect(keys, pending, action).None?
        <==> forall l :: 0 <= l < |keys| ==> pending[keys[l]].action != action
  {
    if keys != [] {
      var init := keys[..|keys| - 1];
      assert forall l :: 0 <= l < |init| ==> init[l] == keys[l];
      CollectNone(init, pending, action);
    }
  }

  /** When the five sub-requests of a fan-out are answered by their matching
      responses, in issue order, unpacking yields each answer: the self state,
      the ip map, the connection status and the peer list. */
  lemma FanInUnpacks(keys: seq<Id>, pending: map<Id, Cbt>)
    requires |keys| == 5 && forall l :: 0 <= l < 5 ==> keys[l] in pending
    requires pending[keys[0]].action == "QUERY_IPOP_STATE_RESP"
    requires pending[keys[1]].action == "RESOLVE_RESP"
    requires pending[keys[2]].action == "QUERY_IP_MAP_RESP"
    requires pending[keys[3]].action == "QUERY_CONN_STAT_RESP"
    requires pending[keys[4]].action == "QUERY_PEER_LIST_RESP"
    ensures Collect(keys, pending, "QUERY_IPOP_STATE_RESP") == Some(pending[keys[0]].data)
    ensures Collect(keys, pending, "QUERY_IP_MAP_RESP") == Some(pending[keys[2]].data)
    ensures Collect(keys, pending, "QUERY_CONN_STAT_RESP") == Some(pending[keys[3]].data)
    ensures Collect(keys, pending, "QUERY_PEER_LIST_RESP") == Some(pending[keys[4]].data)
  {
    CollectLastWins(keys, pending, "QUERY_IPOP_STATE_RESP", 0);
    CollectLastWins(keys, pending, "QUERY_IP_MAP_RESP", 2);
    CollectLastWins(keys, pending, "QUERY_CONN_STAT_RESP", 3);
    CollectLastWins(keys, pending, "QUERY_PEER_LIST_RESP", 4);
  }

  /** The stored self state after the unpacking loop. */
  function Refresh(prev: Option<Data>, found: Option<Data>): Option<Data>
  {
    if found.Some? then found else prev
  }

  class BaseTopologyManager {
    const config: Config
    /** ipoplib.gen_ip4, the external address allocator: (peer uid, ip map, own address). */
    const genIp4: (string, Data, string) -> string

    /** The node's own state from the last QUERY_IPOP_STATE_RESP; None until one arrives. */
    var ipopState: Option<Data>
    /** CBTMappings: originating transaction id to the ids of its sub-requests. */
    var cbtMappings: map<Id, seq<Id>>
    /** pendingCBT: originating transactions and the responses received so far. */
    var pendingCbt: map<Id, Cbt>
    /** Every request issued so far; a request's uid is its index. */
    var outbox: seq<Request>

    /** Every originating transaction is pending, every sub-request id was issued,
        and no sub-request belongs to two originating transactions. */
    ghost predicate Valid()
      reads this
    {
      Correlated(cbtMappings, pendingCbt, |outbox|)
    }

    constructor (config: Config, genIp4: (string, Data, string) -> string)
      ensures Valid()
      ensures this.config == config && this.genIp4 == genIp4
      ensures ipopState == None && cbtMappings == map[] && pendingCbt == map[] && outbox == []
    {
      this.config := config;
      this.genIp4 := genIp4;
      ipopState := None;
      cbtMappings := map[];
      pendingCbt := map[];
      outbox := [];
    }

    /** registerCBT: issue a request; its uid is fresh (never issued before). */
    method RegisterCbt(recipient: ModuleName, action: string, data: Data) returns (id: Id)
      modifies this`outbox
      ensures outbox == old(outbox) + [Request(recipient, action, data)]
      ensures id == |old(outbox)|
    {
      id := |outbox|;
      outbox := outbox + [Request(recipient, action, data)];
    }

    method Initialize()
      requires Valid()
      modifies this`outbox
      ensures Valid()
      ensures outbox == old(outbox) + [InfoLog()]
    {
      var _ := RegisterCbt(Logger, "info", LogText);
    }

    /** The periodic poll: ask the monitor for a fresh peer list. */
    method TimerMethod()
      requires Valid()
      modifies this`outbox
      ensures Valid()
      ensures outbox == old(outbox) + [Request(Monitor, "QUERY_PEER_LIST", NoData)]
    {
      var _ := RegisterCbt(Monitor, "QUERY_PEER_LIST", NoData);
    }

    /** allServicesCompleted: every sub-request id of `src` is a key of `pendingCbt`. */
    predicate AllServicesCompleted(src: Id)
      reads this
      requires src in cbtMappings
    {
      forall j :: 0 <= j < |cbtMappings[src]| ==> cbtMappings[src][j] in pendingCbt
    }

    /** The effect of fanning out the connection message `cbt`. */
    twostate predicate FannedOut(cbt: Cbt)
      reads this
      requires cbt.data.TincanMsg?
    {
      var n := |old(outbox)|;
      && outbox == old(outbox) + FanOutRequests(cbt.data.uid)
      && cbtMappings == old(cbtMappings)[cbt.uid := [n, n + 1, n + 2, n + 3, n + 4]]
      && pendingCbt == old(pendingCbt)[cbt.uid := cbt]
      && ipopState == old(ipopState)
    }

    /** The effect of a transaction that answers none of our requests. */
    twostate predicate UnmappedEffect(cbt: Cbt, r: Outcome)
      reads this
    {
      if cbt.action == "TINCAN_MSG" then
        && r == Handled
        && if IsConnMsg(MsgType(cbt.data)) then FannedOut(cbt)
           else
             && outbox == old(outbox) && cbtMappings == old(cbtMappings)
             && pendingCbt == old(pendingCbt) && ipopState == old(ipopState)
      else
        && cbtMappings == old(cbtMappings) && pendingCbt == old(pendingCbt) && ipopState == old(ipopState)
        && if cbt.action == "QUERY_PEER_LIST_RESP" then
             if cbt.data.PeerList? then r == Handled && outbox == old(outbox) + LinkTrimmerOut(cbt.data.peers, config)
             else r == Raised(PeerListMissing) && outbox == old(outbox)
           else r == Handled && outbox == old(outbox) + [WarningLog()]
    }

    /** The effect of a response to a sub-request of `src`. */
    twostate predicate MappedEffect(src: Id, cbt: Cbt, r: Outcome)
      reads this
    {
      && cbtMappings == old(cbtMappings)
      && pendingCbt == old(pendingCbt)[cbt.uid := cbt]
      && src in cbtMappings && src in pendingCbt
      && var source := pendingCbt[src];
         var keys := cbtMappings[src];
         if AllServicesCompleted(src) && source.action == "TINCAN_MSG" && IsConnMsg(MsgType(source.data)) then
           && ipopState == Refresh(old(ipopState), Collect(keys, pendingCbt, "QUERY_IPOP_STATE_RESP"))
           && var d := Decide(config, genIp4, source.data, ipopState,
                              Collect(keys, pendingCbt, "QUERY_CONN_STAT_RESP"),
                              Collect(keys, pendingCbt, "QUERY_PEER_LIST_RESP"),
                              Collect(keys, pendingCbt, "QUERY_IP_MAP_RESP"));
              r == d.0 && outbox == old(outbox) + [InfoLog()] + d.1
         else
           r == Handled && ipopState == old(ipopState) && outbox == old(outbox)
    }

    /** processCBT: handle one inbound transaction. */
    method ProcessCbt(cbt: Cbt) returns (r: Outcome)
      requires Valid()
      modifies this
      ensures Valid()
      ensures Unmapped(old(cbtMappings), cbt.uid) ==> UnmappedEffect(cbt, r)
      ensures forall src :: src in old(cbtMappings) && cbt.uid in old(cbtMappings)[src] ==> MappedEffect(src, cbt, r)
    {
      ghost var m0 := cbtMappings;
      var src := FindSource(cbtMappings, cbt.uid);
      if src.None? {
        r := HandleUnmapped(cbt);
      } else {
        var s0 := src.value;
        assert forall s :: s in m0 && cbt.uid in m0[s] ==> s == s0;
        r := HandleMapped(s0, cbt);
      }
    }

    /** processCBT for a transaction that is no response of ours. */
    method HandleUnmapped(cbt: Cbt) returns (r: Outcome)
      requires Valid()
      modifies this`cbtMappings, this`pendingCbt, this`outbox
      ensures Valid()
      ensures UnmappedEffect(cbt, r)
    {
      if cbt.action == "TINCAN_MSG" {
        if IsConnMsg(MsgType(cbt.data)) {
          FanOut(cbt);
        }
        r := Handled;
      } else if cbt.action == "QUERY_PEER_LIST_RESP" {
        r := LinkTrimmer(cbt.data);
      } else {
        var _ := RegisterCbt(Logger, "warning", LogText);
        r := Handled;
      }
    }

    /** Issue the five queries of a connection message and remember the message. */
    method FanOut(cbt: Cbt)
      requires Valid() && cbt.data.TincanMsg?
      modifies this`cbtMappings, this`pendingCbt, this`outbox
      ensures Valid()
      ensures FannedOut(cbt)
    {
      ghost var m0, p0, n := cbtMappings, pendingCbt, |outbox|;
      var peer := cbt.data.uid;
      // The dependency list is built locally and stored once; the Python code
      // stores it after the first query and appends in place, which nothing
      // observes in between.
      var stateId := RegisterCbt(Watchdog, "QUERY_IPOP_STATE", NoData);
      var deps := [stateId];
      var mapId := RegisterCbt(AddressMapper, "RESOLVE", Text(peer));
      deps := deps + [mapId];
      var ipMapId := RegisterCbt(AddressMapper, "QUERY_IP_MAP", NoData);
      deps := deps + [ipMapId];
      var connStatId := RegisterCbt(Monitor, "QUERY_CONN_STAT", Text(peer));
      deps := deps + [connStatId];
      var peerListId := RegisterCbt(Monitor, "QUERY_PEER_LIST", NoData);
      deps := deps + [peerListId];
      assert deps == [n, n + 1, n + 2, n + 3, n + 4];
      cbtMappings := cbtMappings[cbt.uid := deps];
      pendingCbt := pendingCbt[cbt.uid := cbt];
      FanOutCorrelated(m0, p0, n, cbt);
    }

    /** processCBT for a response to a sub-request of `src`: store it, and once
        every sub-request id is a key of `pendingCbt`, unpack the answers and
        run the handshake. */
    method HandleMapped(src: Id, cbt: Cbt) returns (r: Outcome)
      requires Valid() && src in cbtMappings && cbt.uid in cbtMappings[src]
      modifies this`pendingCbt, this`ipopState, this`outbox
      ensures Valid()
      ensures MappedEffect(src, cbt, r)
    {
      ghost var n := |outbox|;
      StoreCorrelated(cbtMappings, pendingCbt, n, cbt, n);
      pendingCbt := pendingCbt[cbt.uid := cbt];
      r := Handled;
      if AllServicesCompleted(src) {
        var source := pendingCbt[src];
        if source.action == "TINCAN_MSG" && IsConnMsg(MsgType(source.data)) {
          r := FanIn(src);
          StoreCorrelated(cbtMappings, pendingCbt, n, cbt, |outbox|);
        }
      }
    }

    /** Unpack the responses of `src` (refreshing the stored self state), log,
        and run the handshake. */
    method FanIn(src: Id) returns (r: Outcome)
      requires src in cbtMappings && src in pendingCbt && AllServicesCompleted(src)
      requires pendingCbt[src].data.TincanMsg?
      modifies this`ipopState, this`outbox
      ensures var keys := cbtMappings[src];
        && ipopState == Refresh(old(ipopState), Collect(keys, pendingCbt, "QUERY_IPOP_STATE_RESP"))
        && var d := Decide(config, genIp4, pendingCbt[src].data, ipopState,
                           Collect(keys, pendingCbt, "QUERY_CONN_STAT_RESP"),
                           Collect(keys, pendingCbt, "QUERY_PEER_LIST_RESP"),
                           Collect(keys, pendingCbt, "QUERY_IP_MAP_RESP"));
           r == d.0 && outbox == old(outbox) + [InfoLog()] + d.1
    {
      var keys := cbtMappings[src];
      var msg := pendingCbt[src].data;
      // The RESOLVE_RESP answer is bound to a local the Python code overwrites
      // with the allocator's result before any use, so it is not kept here.
      var connStat: Option<Data> := None;
      var peerList: Option<Data> := None;
      var ipMap: Option<Data> := None;
      var i := 0;
      while i < |keys|
        invariant 0 <= i <= |keys|
        invariant ipopState == Refresh(old(ipopState), Collect(keys[..i], pendingCbt, "QUERY_IPOP_STATE_RESP"))
        invariant connStat == Collect(keys[..i], pendingCbt, "QUERY_CONN_STAT_RESP")
        invariant peerList == Collect(keys[..i], pendingCbt, "QUERY_PEER_LIST_RESP")
        invariant ipMap == Collect(keys[..i], pendingCbt, "QUERY_IP_MAP_RESP")
        invariant outbox == old(outbox)
      {
        assert keys[..i + 1][..i] == keys[..i];
        var c := pendingCbt[keys[i]];
        if c.action == "QUERY_IPOP_STATE_RESP" {
          ipopState := Some(c.data);
        } else if c.action == "QUERY_CONN_STAT_RESP" {
          connStat := Some(c.data);
        } else if c.action == "QUERY_PEER_LIST_RESP" {
          peerList := Some(c.data);
        } else if c.action == "QUERY_IP_MAP_RESP" {
          ipMap := Some(c.data);
        }
        i := i + 1;
      }
      assert keys[..|keys|] == keys;
      var _ := RegisterCbt(Logger, "info", LogText);
      r := ProcessHandshake(msg, connStat, peerList, ipMap);
    }

    /** The handshake from the degree cap to create_connection. */
    method ProcessHandshake(msg: Data, connStat: Option<Data>, peerList: Option<Data>, ipMap: Option<Data>)
      returns (r: Outcome)
      requires msg.TincanMsg?
      modifies this`outbox
      ensures var d := Decide(config, genIp4, msg, ipopState, connStat, peerList, ipMap);
        r == d.0 && outbox == old(outbox) + d.1
    {
      if config.multihop {
        if !(peerList.Some? && peerList.value.PeerList?) {
          return Raised(PeerListMissing);
        }
        var connCnt := CountOnline(peerList.value.peers);
        if connCnt >= config.multihopCl {
          return Handled;
        }
      }
      if connStat.None? {
        return Raised(ConnStatMissing);
      }
      var abort, raised := CheckCollision(msg.msgType, msg.uid, connStat.value);
      if raised {
        return Raised(SelfStateMissing);
      }
      if abort {
        return Handled;
      }
      if SelfUid(ipopState).None? {
        return Raised(SelfStateMissing);
      }
      var split := SplitPayload(msg.payload, |ipopState.value.fpr|);
      if ipMap.None? {
        return Raised(IpMapMissing);
      }
      var ip4 := genIp4(msg.uid, ipMap.value, ipopState.value.ip4);
      CreateConnection(msg.uid, split.0, 1, config.sec, split.1, ip4);
      r := Handled;
    }

    /** create_connection: ask for the link (no address in it), then bind the address. */
    method CreateConnection(uid: string, fpr: string, nid: int, sec: bool, cas: string, ip4: string)
      modifies this`outbox
      ensures outbox == old(outbox) + [Request(LinkManager, "CREATE_LINK", LinkSpec(uid, fpr, nid, sec, cas)),
                                       Request(TincanSender, "DO_SET_REMOTE_IP", RemoteIp(uid, ip4))]
    {
      var linkConf := LinkSpec(uid, fpr, nid, sec, cas);
      var _ := RegisterCbt(LinkManager, "CREATE_LINK", linkConf);
      var _ := RegisterCbt(TincanSender, "DO_SET_REMOTE_IP", RemoteIp(uid, ip4));
    }

    /** check_collision. `abort` is true (drop the message) unless the message
        is a request colliding with our own or a response; `raised` when a
        collision needs the own uid and no self state is stored. */
    method CheckCollision(msgType: Option<string>, uid: string, connStat: Data) returns (abort: bool, raised: bool)
      modifies this`outbox
      ensures raised <==> ReqCollision(msgType, connStat) && SelfUid(ipopState).None?
      ensures !raised ==> (abort <==> CollisionAbort(msgType, connStat))
      ensures outbox == old(outbox) + CollisionRequests(msgType, uid, connStat, SelfUid(ipopState))
    {
      raised := false;
      if ReqCollision(msgType, connStat) {
        if SelfUid(ipopState).None? {
          return true, true;
        }
        if UidGreater(uid, ipopState.value.selfUid) {
          var _ := RegisterCbt(LinkManager, "TRIM_LINK", Text(uid));
          var _ := RegisterCbt(Monitor, "DELETE_CONN_STAT", Text(uid));
        }
        abort := false;
      } else if msgType == Some("con_resp") {
        var _ := RegisterCbt(Monitor, "STORE_CONN_STAT", ConnStatus(uid, "resp_recv"));
        abort := false;
      } else {
        abort := true;
      }
    }

    /** __link_trimmer over a peer-list payload. */
    method LinkTrimmer(data: Data) returns (r: Outcome)
      modifies this`outbox
      ensures data.PeerList? ==> r == Handled && outbox == old(outbox) + LinkTrimmerOut(data.peers, config)
      ensures !data.PeerList? ==> r == Raised(PeerListMissing) && outbox == old(outbox)
    {
      if !data.PeerList? {
        return Raised(PeerListMissing);
      }
      var ps := data.peers;
      var i := 0;
      while i < |ps|
        invariant 0 <= i <= |ps|
        invariant outbox == old(outbox) + TrimmerRounds(ps[..i], ps, config)
      {
        TrimRound(ps, i);
        assert ps[..i + 1][..i] == ps[..i];
        i := i + 1;
      }
      assert ps[..|ps|] == ps;
      r := Handled;
    }

    /** One iteration of the outer loop of __link_trimmer, for entry `i`. */
    method TrimRound(ps: PeerEntries, i: nat)
      requires i < |ps|
      modifies this`outbox
      ensures outbox == old(outbox) + OfflineTrim(ps[i], config.linkTrimmerWaitTime)
                        + (if config.multihop then ExcessTrims(ps, config.multihopCl) else [])
    {
      var (k, v) := ps[i];
      if v.fpr.Some? && v.status == "offline" {
        if v.lastTime > config.linkTrimmerWaitTime {
          var _ := RegisterCbt(LinkManager, "TRIM_LINK", Text(k));
        }
      }
      if config.multihop {
        ExcessPass(ps);
      }
    }

    /** The inner loop of __link_trimmer: count the online peers of the whole
        snapshot and trim each one past the cap. */
    method ExcessPass(ps: PeerEntries)
      modifies this`outbox
      ensures outbox == old(outbox) + ExcessTrims(ps, config.multihopCl)
    {
      var connectionCount := 0;
      var j := 0;
      while j < |ps|
        invariant 0 <= j <= |ps|
        invariant connectionCount == OnlineCount(ps[..j])
        invariant outbox == old(outbox) + ExcessTrims(ps[..j], config.multihopCl)
      {
        assert ps[..j + 1][..j] == ps[..j];
        var (k, v) := ps[j];
        if v.fpr.Some? && v.status == "online" {
          connectionCount := connectionCount + 1;
          if connectionCount > config.multihopCl {
            var _ := RegisterCbt(LinkManager, "TRIM_LINK", Text(k));
          }
        }
        j := j + 1;
      }
      assert ps[..|ps|] == ps;
    }
  }
}
