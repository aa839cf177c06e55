/** Transactions (CBTs) exchanged between controller modules, and the payloads
    the topology manager reads or writes. The Python code passes dynamically typed
    payloads; here each shape it uses is one constructor of `Data`. */
module Messages {

  /** A transaction id. Requests this module issues are numbered by their
      position in the module's outbox. */
  type Id = nat

  datatype Option<T> = None | Some(value: T)

  /** The collaborators addressed by the topology manager. */
  datatype ModuleName = Logger | Watchdog | AddressMapper | Monitor | LinkManager | TincanSender

  /** One entry of a peer-list snapshot; `fpr` is None when the record has no "fpr" key. */
  datatype Peer = Peer(fpr: Option<string>, status: string, lastTime: int)

  datatype Data =
    | NoData
    | LogText                    // a log line; its text is not modelled
    | Text(s: string)            // a bare string: a peer uid, a status, an address
    | TincanMsg(msgType: Option<string>, uid: string, payload: string)
    | IpopState(selfUid: string, fpr: string, ip4: string)
    | PeerList(peers: seq<(string, Peer)>)   // in the snapshot's iteration order
    | IpMap(entries: map<string, string>)
    | ConnStatus(uid: string, status: string)
    | LinkSpec(uid: string, fpr: string, nid: int, sec: bool, cas: string)
    | RemoteIp(uid: string, ip4: string)

  /** An inbound transaction: a request addressed to this module or a response to one of its requests. */
  datatype Cbt = Cbt(uid: Id, initiator: string, recipient: string, action: string, data: Data)

  /** An outbound request, as handed to the framework's registerCBT. */
  datatype Request = Request(recipient: ModuleName, action: string, data: Data)

  /** Static policy values read from the module's configuration. */
  datatype Config = Config(multihop: bool, multihopCl: int, sec: bool, linkTrimmerWaitTime: int)

  /** Why the handling of a transaction stopped with a Python exception. */
  datatype Fault = PeerListMissing | ConnStatMissing | SelfStateMissing | IpMapMissing

  /** How the handling of one transaction ended. */
  datatype Outcome = Handled | Raised(fault: Fault)

  /** The "type" field of a network message; None when the payload carries none. */
  function MsgType(d: Data): Option<string>
  {
    if d.TincanMsg? then d.msgType else None
  }

  /** The two message types that start a handshake. */
  predicate IsConnMsg(t: Option<string>)
  {
    t == Some("con_req") || t == Some("con_resp")
  }

  function TrimLink(uid: string): Request
  {
    Request(LinkManager, "TRIM_LINK", Text(uid))
  }

  function InfoLog(): Request
  {
    Request(Logger, "info", LogText)
  }

  function WarningLog(): Request
  {
    Request(Logger, "warning", LogText)
  }
}
