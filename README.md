# BaseTopologyManager model

This is a Dafny model of the topology manager module of the IPOP controller,
`BaseTopologyManager`. The module decides which peer links to create, settles
simultaneous connection attempts, and trims offline or excess links.

It handles one inbound transaction (a CBT, a request or response record) at a time:

- **Fan-out.** A connection message (`TINCAN_MSG` of type `con_req` or
  `con_resp`) that answers none of the module's requests issues five queries: self
  state, uid resolution, ip map, connection status and peer list. It records
  their ids in `CBTMappings` and keeps the message in `pendingCBT`.
- **Fan-in.** Each response to one of those queries is stored in `pendingCBT`.
  Once every sub-request id is a key of `pendingCBT`, the responses are unpacked and `ipop_state` is
  refreshed. Then the handshake runs: the multihop degree cap, then
  `check_collision`, then the split of the payload into fingerprint and
  candidate addresses, and finally `create_connection`. That sends
  `CREATE_LINK` to the link manager and `DO_SET_REMOTE_IP` to the sender.
- **Link trimmer.** A peer-list response that answers none of the module's requests
  runs the link trimmer. It sends `TRIM_LINK` for stale offline peers and, in
  multihop mode, for online peers past the cap.
- **Any other action** that answers none of the module's requests is logged as a warning.
  A `TINCAN_MSG` of any other type is dropped without a log.

The file layout:

- `messages.dfy` (`Messages`): the data model. It covers transactions, a
  `Data` constructor per payload shape the module reads or writes, outbound
  requests, the configuration, and how handling ends (`Outcome`). A Python
  exception is modelled as `Raised`.
- `peer_policy.dfy` (`PeerPolicy`): the online counter of the degree cap and
  the link trimmer's output, with the properties proved about both.
- `handshake.dfy` (`Handshake`): Python string order on uids, the payload
  split, the collision requests, and `Decide`. `Decide` is the handshake from
  the degree cap to `create_connection`, given as a function of its inputs.
- `topology_manager.dfy` (`TopologyManager`): the class
  `BaseTopologyManager`. Its fields are `ipopState`, `cbtMappings`,
  `pendingCbt` and the `outbox` of issued requests. Each handler is a method,
  and each is proved against the functions above.

`registerCBT` appends a request to `outbox` and returns the request's index as
its uid. So every issued uid is fresh, and the uid of `outbox[i]` is `i`.
`Valid()` is the invariant every handler keeps:

- every originating transaction in `cbtMappings` is in `pendingCbt`;
- every sub-request id has already been issued;
- no sub-request id belongs to two originating transactions.

So `checkMapping` has at most one answer. The lookup `pendingCBT[sourceCBT_uid]`
(line 59) never fails; neither does `pendingCBT[key]` (line 64) once
`allServicesCompleted` holds.

## Behaviour worth noting

The model follows the code in each of these cases.

- The uid comparison in `check_collision` is Python `>` on strings, so it is
  lexicographic. `"5" > "10"`, so a node with uid `"10"` yields to peer `"5"`
  and trims its own attempt (`Handshake.CollisionStringOrder`). The comparison
  is not numeric.
- `check_collision` never makes a colliding request or a response "defer".
  It returns false (proceed) for a request colliding with our own attempt and
  for any response. It returns true (abort) for every other request, including
  a `con_req` whose status is not `"req_sent"` (`CheckCollision`).
- The multihop trimming loop is nested in the per-peer loop. So with N peers,
  each online peer past the cap is trimmed N times. With a cap of 2 and three
  online peers, the third peer is trimmed three times, not once
  (`PeerPolicy.MultihopExample`, `PeerPolicy.TrimCountPerPeer`).
- `CREATE_LINK` carries no `ip4`. The address goes only to `DO_SET_REMOTE_IP`.
- A payload shorter than the fingerprint does not fail. It yields a truncated
  fingerprint and no candidates (`Handshake.SplitPayload`).
- Duplicate responses are not suppressed. Every response to a sub-request of
  a completed fan-out runs the handshake again (`MappedEffect` in
  `ProcessCbt`). No mapping is ever removed, and no wait has a timeout.

## Model

| member | source | states |
|---|---|---|
| `TopologyManager.BaseTopologyManager.ProcessCbt` | controllers/controller/modules/svpn/BaseTopologyManager.py:16-96 | A transaction that answers none of our requests has the unmapped effect. A response to a sub-request of `src` has the mapped effect. `Valid()` is kept. |
| `TopologyManager.BaseTopologyManager.HandleUnmapped` | controllers/controller/modules/svpn/BaseTopologyManager.py:19-49 | A connection message fans out. A `TINCAN_MSG` of any other type changes nothing and issues nothing. A peer-list response issues exactly the trimmer's output. Any other action issues exactly one warning log and changes no state. |
| `TopologyManager.BaseTopologyManager.FanOut` | controllers/controller/modules/svpn/BaseTopologyManager.py:25-40 | The outbox gains exactly the five queries, in order: QUERY_IPOP_STATE, RESOLVE(uid), QUERY_IP_MAP, QUERY_CONN_STAT(uid), QUERY_PEER_LIST. `CBTMappings[cbt.uid]` is exactly their five fresh uids, and `pendingCBT[cbt.uid]` is `cbt`. No other entry changes. |
| `TopologyManager.FanOutCorrelated` | controllers/controller/modules/svpn/BaseTopologyManager.py:25-40 | A fan-out with five newly issued ids keeps the correlation invariant: the originator is pending, ids were issued, and the lists stay disjoint. |
| `TopologyManager.StoreCorrelated` | controllers/controller/modules/svpn/BaseTopologyManager.py:55 | Storing a response, and issuing further requests, keeps the correlation invariant. |
| `TopologyManager.FindSource` | controllers/controller/modules/svpn/BaseTopologyManager.py:19 | checkMapping returns an originator whose list holds the uid. It returns none exactly when no list holds the uid. |
| `TopologyManager.BaseTopologyManager.HandleMapped` | controllers/controller/modules/svpn/BaseTopologyManager.py:52-62 | The response is stored under its own uid and the mappings are unchanged. Unpacking and the handshake happen only when every sub-request id of the source is a key of `pendingCBT` and the source is a connection message. Otherwise nothing else changes. |
| `TopologyManager.BaseTopologyManager.FanIn` | controllers/controller/modules/svpn/BaseTopologyManager.py:63-77 | After unpacking, `ipop_state` is the data of the last QUERY_IPOP_STATE_RESP, or is unchanged if there is none. One info log is issued, and then exactly what `Decide` gives for the unpacked values. |
| `TopologyManager.Collect` | controllers/controller/modules/svpn/BaseTopologyManager.py:63-73 | Definition of what the unpacking loop keeps for one action: the data of the last response with that action, or none. `CollectLastWins` and `CollectNone` state this outright. |
| `TopologyManager.BaseTopologyManager.AllServicesCompleted` | controllers/controller/modules/svpn/BaseTopologyManager.py:58 | Definition of the framework's allServicesCompleted: every sub-request id of the source is a key of `pendingCBT`. |
| `TopologyManager.CollectLastWins` | controllers/controller/modules/svpn/BaseTopologyManager.py:63-73 | The value the unpacking loop keeps for an action is the data of the last response with that action. |
| `TopologyManager.CollectNone` | controllers/controller/modules/svpn/BaseTopologyManager.py:63-73 | The unpacking loop keeps no value for an action exactly when no response has that action. |
| `TopologyManager.FanInUnpacks` | controllers/controller/modules/svpn/BaseTopologyManager.py:63-73 | When the five responses match the five queries, unpacking yields the self state, the ip map, the status and the peer list from their own responses. |
| `TopologyManager.BaseTopologyManager.ProcessHandshake` | controllers/controller/modules/svpn/BaseTopologyManager.py:79-96 | The outcome and the issued requests are exactly those of `Decide`. |
| `PeerPolicy.CountOnline` | controllers/controller/modules/svpn/BaseTopologyManager.py:80-83 | The degree-cap counter equals the number of peers that have a fingerprint and status "online". |
| `PeerPolicy.OnlineCount` | controllers/controller/modules/svpn/BaseTopologyManager.py:80-83 | Definition of the degree-cap counter: the number of peers with a fingerprint and status "online". `CountOnline` is proved equal to it. |
| `PeerPolicy.OnlineCountBound` | controllers/controller/modules/svpn/BaseTopologyManager.py:80-83 | The counter never exceeds the number of peers, and equals it exactly when every peer is online with a fingerprint. |
| `Handshake.DecideDegreeCap` | controllers/controller/modules/svpn/BaseTopologyManager.py:79-85 | In multihop mode with an online count of at least `multihop_cl`, the handshake ends with nothing issued. So no CREATE_LINK is sent, and check_collision is not reached, so no TRIM_LINK or STORE_CONN_STAT is sent either. |
| `Handshake.DecideCreatesLink` | controllers/controller/modules/svpn/BaseTopologyManager.py:79-96 | A CREATE_LINK is issued exactly when all of these hold: the cap is open, the status is known, check_collision proceeds, the self state is known, and an ip map arrived. The handshake then ends with CREATE_LINK {uid, fpr, nid 1, sec, cas}, which has no ip4, and then DO_SET_REMOTE_IP {uid, gen_ip4(uid, ip_map, own ip4)}. The only requests before those two are check_collision's. |
| `TopologyManager.BaseTopologyManager.CheckCollision` | controllers/controller/modules/svpn/BaseTopologyManager.py:107-122 | It raises exactly when a con_req meets status "req_sent" and there is no self state. Otherwise it aborts exactly when the message is neither that collision nor a con_resp. It issues exactly `CollisionRequests`: TRIM_LINK(uid) then DELETE_CONN_STAT(uid) on a collision with a greater uid, STORE_CONN_STAT{uid, "resp_recv"} on a con_resp, and nothing otherwise. |
| `Handshake.LexLess` | controllers/controller/modules/svpn/BaseTopologyManager.py:109 | Definition of Python `<` on strings: lexicographic by character, with a proper prefix smaller. Its order properties are `UidOrderTotal` and `UidOrderTransitive`. |
| `Handshake.UidGreater` | controllers/controller/modules/svpn/BaseTopologyManager.py:109 | Definition of Python `a > b` on uid strings, as `LexLess(b, a)`. |
| `Handshake.UidOrderTotal` | controllers/controller/modules/svpn/BaseTopologyManager.py:109 | The uid order is irreflexive and asymmetric, and of two distinct uids exactly one is the smaller. |
| `Handshake.UidOrderTransitive` | controllers/controller/modules/svpn/BaseTopologyManager.py:109 | The uid order is transitive. With `UidOrderTotal` it is a strict total order. |
| `Handshake.CollisionRequests` | controllers/controller/modules/svpn/BaseTopologyManager.py:108-121 | Definition of what check_collision issues: TRIM_LINK(uid) and DELETE_CONN_STAT(uid) on a con_req with status "req_sent" from a greater uid, STORE_CONN_STAT{uid, "resp_recv"} on a con_resp, and nothing otherwise. `CheckCollision`, `CollisionTieBreak` and `CollisionStringOrder` are stated against it. |
| `Handshake.Decide` | controllers/controller/modules/svpn/BaseTopologyManager.py:79-96 | Definition of the handshake as a function: a missing peer list in multihop mode raises, a reached cap ends with nothing issued, a missing status raises, a collision without self state raises; otherwise the collision requests, then (when check_collision proceeds, the self state is known and the ip map arrived) the two create_connection requests. `DecideDegreeCap` and `DecideCreatesLink` state its properties. |
| `Handshake.CollisionTieBreak` | controllers/controller/modules/svpn/BaseTopologyManager.py:108-111 | Take two nodes with distinct uids that have both sent a request and then receive each other's. Exactly one of them trims its own attempt. |
| `Handshake.CollisionStringOrder` | controllers/controller/modules/svpn/BaseTopologyManager.py:109-111 | A peer "5" against own uid "10" is trimmed, because the comparison is on strings. So is a peer "50". |
| `Handshake.SplitPayload` | controllers/controller/modules/svpn/BaseTopologyManager.py:88-90 | With L the length of the own fingerprint, `fpr` is the prefix of length min(L, \|data\|). When \|data\| > L, `fpr + [data[L]] + cas == data`. Otherwise `cas` is empty. |
| `Handshake.SplitExample` | controllers/controller/modules/svpn/BaseTopologyManager.py:88-90 | L = 4 and "ABCDXYZ123" give "ABCD" and "YZ123". |
| `TopologyManager.BaseTopologyManager.CreateConnection` | controllers/controller/modules/svpn/BaseTopologyManager.py:99-104 | It issues exactly CREATE_LINK {uid, fpr, nid, sec, cas} to the link manager, with no ip4, and then DO_SET_REMOTE_IP {uid, ip4} to the sender. |
| `TopologyManager.BaseTopologyManager.LinkTrimmer` | controllers/controller/modules/svpn/BaseTopologyManager.py:124-137 | For a peer list it issues exactly the trimmer's output, one outer round per entry in snapshot order. Any other payload raises with nothing issued. |
| `TopologyManager.BaseTopologyManager.TrimRound` | controllers/controller/modules/svpn/BaseTopologyManager.py:125-137 | One outer iteration issues the entry's offline trim. In multihop mode it then issues a full inner pass. |
| `TopologyManager.BaseTopologyManager.ExcessPass` | controllers/controller/modules/svpn/BaseTopologyManager.py:131-137 | The inner loop trims each online peer with a fingerprint whose running count exceeds `multihop_cl`. |
| `PeerPolicy.ExcessTrims` | controllers/controller/modules/svpn/BaseTopologyManager.py:131-137 | Definition of one pass of the inner loop: a trim for each online peer with a fingerprint once the running count exceeds `multihop_cl`. `ExcessPass` is proved equal to it. |
| `PeerPolicy.TrimmerRounds` | controllers/controller/modules/svpn/BaseTopologyManager.py:124-137 | Definition of the outer loop: per entry, its offline trim, then (multihop) a whole inner pass over the snapshot. `TrimRound` and `LinkTrimmer` are proved equal to it. |
| `PeerPolicy.LinkTrimmerOut` | controllers/controller/modules/svpn/BaseTopologyManager.py:124-137 | Definition of the trimmer's whole output for a snapshot. `TrimmerOfflineRule`, `TrimmerRoundsCount` and `TrimCountPerPeer` state its properties. |
| `PeerPolicy.TrimmerOfflineRule` | controllers/controller/modules/svpn/BaseTopologyManager.py:124-129 | With multihop off, the output is exactly TRIM_LINK(k), in snapshot order, for each peer with a fingerprint, status "offline" and `last_time > link_trimmer_wait_time`. |
| `PeerPolicy.TrimmerRoundsCount` | controllers/controller/modules/svpn/BaseTopologyManager.py:124-137 | Every request occurs as often as it does among the offline trims, plus (multihop) N times as often as in one inner pass, for N peers. |
| `PeerPolicy.ExcessTrimsLength` | controllers/controller/modules/svpn/BaseTopologyManager.py:131-137 | One inner pass issues one trim per online peer beyond the first `multihop_cl`. |
| `PeerPolicy.ExcessTrimsPerPeer` | controllers/controller/modules/svpn/BaseTopologyManager.py:131-137 | One inner pass trims a peer once if it is online and its rank among online peers is strictly greater than `multihop_cl`. Otherwise it does not trim it, so the first `multihop_cl` are never trimmed. |
| `PeerPolicy.ExcessTrimsAbsent` | controllers/controller/modules/svpn/BaseTopologyManager.py:131-137 | An inner pass trims no key that is absent from the snapshot. |
| `PeerPolicy.OfflineTrimsPerPeer` | controllers/controller/modules/svpn/BaseTopologyManager.py:125-129 | The offline rule trims a peer once if it is stale and offline, and otherwise not at all. |
| `PeerPolicy.OfflineTrimsAbsent` | controllers/controller/modules/svpn/BaseTopologyManager.py:125-129 | The offline rule trims no key that is absent from the snapshot. |
| `PeerPolicy.TrimCountPerPeer` | controllers/controller/modules/svpn/BaseTopologyManager.py:124-137 | A peer is trimmed once if it is stale and offline. It is trimmed N times in multihop mode if it is online past the cap. A peer without "fpr" is never trimmed. |
| `PeerPolicy.ExcessTrimsKeys` | controllers/controller/modules/svpn/BaseTopologyManager.py:131-137 | Every request of one inner pass is TRIM_LINK of a peer of the snapshot. |
| `PeerPolicy.TrimmerRoundsKeys` | controllers/controller/modules/svpn/BaseTopologyManager.py:124-137 | The outer rounds over any prefix of the snapshot issue only TRIM_LINK requests for peers of the snapshot. |
| `PeerPolicy.TrimmerOutKeys` | controllers/controller/modules/svpn/BaseTopologyManager.py:124-137 | Everything the link trimmer issues is TRIM_LINK(k) for a key k of the snapshot, in both modes. |
| `PeerPolicy.OfflineExample` | controllers/controller/modules/svpn/BaseTopologyManager.py:127-129 | An offline peer idle for 120 against a threshold of 60 is trimmed. Idle for 30, it is not. |
| `PeerPolicy.MultihopExample` | controllers/controller/modules/svpn/BaseTopologyManager.py:131-137 | With a cap of 2 and three online peers, the output is TRIM_LINK of the third peer, three times. |
| `TopologyManager.BaseTopologyManager.TimerMethod` | controllers/controller/modules/svpn/BaseTopologyManager.py:139-140 | Each tick issues exactly one QUERY_PEER_LIST to the monitor and keeps `Valid()`. |
| `TopologyManager.BaseTopologyManager.Initialize` | controllers/controller/modules/svpn/BaseTopologyManager.py:13-14 | It issues exactly one info log and keeps `Valid()`. |
| `TopologyManager.BaseTopologyManager.constructor` | controllers/controller/modules/svpn/BaseTopologyManager.py:8-11 | It starts with no self state, no mappings, nothing pending and nothing issued, and `Valid()` holds. |
| `TopologyManager.BaseTopologyManager.RegisterCbt` | controllers/controller/modules/svpn/BaseTopologyManager.py:25 | It appends one request and returns its index, a uid that was never issued before. |

## Left out

- ControllerModule internals are not part of this model: the transaction bus, CFxHandle and the framework's own bookkeeping. `registerCBT` is an append to `outbox`. `checkMapping` is `FindSource`. `allServicesCompleted` is the key-presence predicate `AllServicesCompleted`.
- FindSource: when two dependency lists hold the same uid, the framework returns the one met first in dictionary order, and the model returns either. `Valid()` rules that case out for every state the handlers reach.
- `ipoplib.gen_ip4` is a foreign allocation function. It is the class's `genIp4` constant, left uninterpreted: any function of (peer uid, ip map, own address).
- Log message text is not modelled. Only the fact and the level of each Logger request are kept.
- `terminate` (line 142) does nothing and is not modelled.
- Concurrency and delivery are not modelled. The module handles one transaction at a time, and what the bus does with `outbox` is outside this model.
- Python exceptions end handling with `Raised(fault)`. Any state changed before the exception stays changed. What the framework does with the exception is not modelled.
- Python's dynamic typing is narrowed to the `Data` sum. A payload that is not a network message counts as having no "type". Python would raise on a non-dictionary payload instead.
- Messages without "uid" or "data", and peer records with "fpr" but no "status" or "last_time", are not modelled. In Python those raise KeyError.
- The RESOLVE_RESP value (line 67) is not kept: the code overwrites it at line 91 before any use.
- Transaction uids are natural numbers, where the framework uses uuid strings. `last_time` and `link_trimmer_wait_time` are integers, and `CMConfig["sec"]` is a boolean.
- Inbound uids are assumed distinct from every issued id; the framework's uuids guarantee this, the model's natural-number ids do not. When one is not, that message is handled as the answer to the issued request: it is not fanned out, trimmed or logged, and it can overwrite its own originating entry in `pendingCBT`, so the handshake never runs. An inbound uid equal to a later sub-request id also counts as that sub-request's answer in `AllServicesCompleted`.
- Timeouts, duplicate-response suppression and mapping cleanup do not exist in this code, so the model has none.
