/** The handshake decision for a completed fan-in bundle: the degree cap, the
    collision check, the split of the payload into fingerprint and candidate
    addresses, and the two link-creation requests. */
module Handshake {
  import opened Messages
  import opened PeerPolicy

  /** Python's `<` on strings: lexicographic by character, a proper prefix is smaller. */
  predicate LexLess(a: string, b: string)
  {
    if b == [] then false
    else if a == [] then true
    else if a[0] != b[0] then a[0] < b[0]
    else LexLess(a[1..], b[1..])
  }

  /** Python's `a > b` on two uid strings. */
  predicate UidGreater(a: string, b: string)
  {
    LexLess(b, a)
  }

  /** The uid order is irreflexive and asymmetric, and of two distinct uids
      exactly one is the greater. */
  lemma {:induction false} UidOrderTotal(a: string, b: string)
    ensures !(LexLess(a, b) && LexLess(b, a))
    ensures a != b <==> (LexLess(a, b) || LexLess(b, a))
  {
    if a != [] && b != [] && a[0] == b[0] {
      UidOrderTotal(a[1..], b[1..]);
      assert a == [a[0]] + a[1..] && b == [b[0]] + b[1..];
    }
  }

  /** The uid order is transitive; with `UidOrderTotal` it is a strict total order. */
  lemma {:induction false} UidOrderTransitive(a: string, b: string, c: string)
    requires LexLess(a, b) && LexLess(b, c)
    ensures LexLess(a, c)
  {
    if a != [] && a[0] == b[0] && b[0] == c[0] {
      UidOrderTransitive(a[1..], b[1..], c[1..]);
    }
  }

  /** Python `s[:n]` for `n >= 0`. */
  function SliceTo(s: string, n: nat): string
  {
    if n <= |s| then s[..n] else s
  }

  /** Python `s[n:]` for `n >= 0`. */
  function SliceFrom(s: string, n: nat): string
  {
    if n <= |s| then s[n..] else []
  }

  /** The payload is the fingerprint (as long as the node's own), one delimiter
      character, then the candidate addresses. A short payload gives a truncated
      fingerprint and no candidates; it never fails. */
  function SplitPayload(data: string, fprLen: nat): (r: (string, string))
    ensures |r.0| == (if fprLen <= |data| then fprLen else |data|)
    ensures r.0 == data[..|r.0|]
    ensures |data| > fprLen ==> r.0 + [data[fprLen]] + r.1 == data
    ensures |data| <= fprLen ==> r.1 == []
  {
    (SliceTo(data, fprLen), SliceFrom(data, fprLen + 1))
  }

  /** A fingerprint of length 4 and the payload "ABCDXYZ123": the "X" is the delimiter. */
  lemma SplitExample()
    ensures SplitPayload("ABCDXYZ123", 4) == ("ABCD", "YZ123")
  {
    assert "ABCDXYZ123"[..4] == "ABCD";
    assert "ABCDXYZ123"[5..] == "YZ123";
  }

  /** Both sides tried to connect: a request arrives while our own request is out. */
  predicate ReqCollision(msgType: Option<string>, connStat: Data)
  {
    msgType == Some("con_req") && connStat == Text("req_sent")
  }

  /** The signal check_collision returns: true (abort) unless the message is a
      colliding request or a response. */
  predicate CollisionAbort(msgType: Option<string>, connStat: Data)
  {
    !(ReqCollision(msgType, connStat) || msgType == Some("con_resp"))
  }

  /** The node's own uid, when the stored self state is one. */
  function SelfUid(state: Option<Data>): Option<string>
  {
    if state.Some? && state.value.IpopState? then Some(state.value.selfUid) else None
  }

  /** The requests check_collision issues: on a collision with a greater peer
      uid, trim our attempt and forget its status; on a response, record it. */
  function CollisionRequests(msgType: Option<string>, uid: string, connStat: Data, self: Option<string>): seq<Request>
  {
    if ReqCollision(msgType, connStat) then
      if self.Some? && UidGreater(uid, self.value)
      then [TrimLink(uid), Request(Monitor, "DELETE_CONN_STAT", Text(uid))]
      else []
    else if msgType == Some("con_resp") then [Request(Monitor, "STORE_CONN_STAT", ConnStatus(uid, "resp_recv"))]
    else []
  }

  /** What create_connection issues. The link request carries no address. */
  function ConnectionRequests(uid: string, fpr: string, nid: int, sec: bool, cas: string, ip4: string): seq<Request>
  {
    [Request(LinkManager, "CREATE_LINK", LinkSpec(uid, fpr, nid, sec, cas)),
     Request(TincanSender, "DO_SET_REMOTE_IP", RemoteIp(uid, ip4))]
  }

  /** The degree cap blocks the handshake. */
  predicate CapReached(cfg: Config, peerList: Option<Data>)
  {
    cfg.multihop && peerList.Some? && peerList.value.PeerList?
      && OnlineCount(peerList.value.peers) >= cfg.multihopCl
  }

  /** The handshake after the fan-in bundle is unpacked, from the degree cap to
      create_connection: how it ends, and the requests it issues after the info
      log line. `gen` is the external address allocator. */
  function Decide(cfg: Config, gen: (string, Data, string) -> string, msg: Data, state: Option<Data>,
                  connStat: Option<Data>, peerList: Option<Data>, ipMap: Option<Data>): (Outcome, seq<Request>)
    requires msg.TincanMsg?
  {
    if cfg.multihop && !(peerList.Some? && peerList.value.PeerList?) then (Raised(PeerListMissing), [])
    else if CapReached(cfg, peerList) then (Handled, [])
    else if connStat.None? then (Raised(ConnStatMissing), [])
    else if ReqCollision(msg.msgType, connStat.value) && SelfUid(state).None? then (Raised(SelfStateMissing), [])
    else
      var col := CollisionRequests(msg.msgType, msg.uid, connStat.value, SelfUid(state));
      if CollisionAbort(msg.msgType, connStat.value) then (Handled, col)
      else if SelfUid(state).None? then (Raised(SelfStateMissing), col)
      else if ipMap.None? then (Raised(IpMapMissing), col)
      else
        var split := SplitPayload(msg.payload, |state.value.fpr|);
        (Handled, col + ConnectionRequests(msg.uid, split.0, 1, cfg.sec, split.1,
                                           gen(msg.uid, ipMap.value, state.value.ip4)))
  }

  predicate CreatesLink(out: seq<Request>)
  {
    exists k :: 0 <= k < |out| && out[k].action == "CREATE_LINK"
  }

  /** Degree cap: once the online count meets the cap nothing is issued, so
      neither the collision check nor create_connection is reached. */
  lemma DecideDegreeCap(cfg: Config, gen: (string, Data, string) -> string, msg: Data, state: Option<Data>,
                        connStat: Option<Data>, ps: PeerEntries, ipMap: Option<Data>)
    requires msg.TincanMsg? && cfg.multihop && OnlineCount(ps) >= cfg.multihopCl
    ensures Decide(cfg, gen, msg, state, connStat, Some(PeerList(ps)), ipMap) == (Handled, [])
  {
  }

  /** A link is requested exactly when the cap is open, the status is known,
      the collision check lets the message through, the self state is known and
      the ip map arrived; the handshake then ends with exactly the link request
      (fingerprint and candidates from the payload, no address) and the address
      binding (address from the allocator). */
  lemma DecideCreatesLink(cfg: Config, gen: (string, Data, string) -> string, msg: Data, state: Option<Data>,
                          connStat: Option<Data>, peerList: Option<Data>, ipMap: Option<Data>)
    requires msg.TincanMsg?
    ensures var d := Decide(cfg, gen, msg, state, connStat, peerList, ipMap);
      CreatesLink(d.1) <==>
        ((!cfg.multihop || (peerList.Some? && peerList.value.PeerList?)) && !CapReached(cfg, peerList)
         && connStat.Some? && !CollisionAbort(msg.msgType, connStat.value)
         && SelfUid(state).Some? && ipMap.Some?)
    ensures var d := Decide(cfg, gen, msg, state, connStat, peerList, ipMap);
      CreatesLink(d.1) ==>
        var split := SplitPayload(msg.payload, |state.value.fpr|);
        && d.0 == Handled
        && |d.1| >= 2
        && d.1[|d.1| - 2] == Request(LinkManager, "CREATE_LINK", LinkSpec(msg.uid, split.0, 1, cfg.sec, split.1))
        && d.1[|d.1| - 1] == Request(TincanSender, "DO_SET_REMOTE_IP",
                                     RemoteIp(msg.uid, gen(msg.uid, ipMap.value, state.value.ip4)))
        && d.1[..|d.1| - 2] == CollisionRequests(msg.msgType, msg.uid, connStat.value, SelfUid(state))
  {
    var d := Decide(cfg, gen, msg, state, connStat, peerList, ipMap);
    if connStat.Some? {
      var col := CollisionRequests(msg.msgType, msg.uid, connStat.value, SelfUid(state));
      assert !CreatesLink(col);
      if (!cfg.multihop || (peerList.Some? && peerList.value.PeerList?)) && !CapReached(cfg, peerList)
         && !CollisionAbort(msg.msgType, connStat.value) && SelfUid(state).Some? && ipMap.Some? {
        assert d.1[|col|].action == "CREATE_LINK";
        assert d.1[..|d.1| - 2] == col;
      } else {
        assert d.1 == [] || d.1 == col;
      }
    }
  }

  /** Two nodes with distinct uids that both sent a request and then receive
      each other's request: exactly one of them (the one whose peer has the
      greater uid) trims its own attempt. */
  lemma CollisionTieBreak(a: string, b: string)
    requires a != b
    ensures (CollisionRequests(Some("con_req"), b, Text("req_sent"), Some(a)) != [])
         != (CollisionRequests(Some("con_req"), a, Text("req_sent"), Some(b)) != [])
  {
    UidOrderTotal(a, b);
  }

  /** Uids compare as strings, not numbers: "5" > "10", so a node with uid
      "10" yields to a peer "5" and trims its own attempt. */
  lemma CollisionStringOrder()
    ensures CollisionRequests(Some("con_req"), "5", Text("req_sent"), Some("10"))
         == [TrimLink("5"), Request(Monitor, "DELETE_CONN_STAT", Text("5"))]
    ensures CollisionRequests(Some("con_req"), "50", Text("req_sent"), Some("10"))
         == [TrimLink("50"), Request(Monitor, "DELETE_CONN_STAT", Text("50"))]
  {
  }
}
