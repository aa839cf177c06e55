/** Degree limiting and idle-link eviction over a peer-list snapshot:
    the connection counter of the handshake's degree cap and the link trimmer. */
module PeerPolicy {
  import opened Messages

  type PeerEntries = seq<(string, Peer)>

  /** A peer with a known fingerprint whose status is "online". */
  predicate OnlineWithFpr(p: Peer)
  {
    p.fpr.Some? && p.status == "online"
  }

  /** A peer with a known fingerprint, "offline", idle strictly longer than `wait`. */
  predicate StaleOffline(p: Peer, wait: int)
  {
    p.fpr.Some? && p.status == "offline" && p.lastTime > wait
  }

  /** Python dictionaries have distinct keys. */
  ghost predicate DistinctKeys(ps: PeerEntries)
  {
    forall i, j :: 0 <= i < j < |ps| ==> ps[i].0 != ps[j].0
  }

  /** Number of online peers with a fingerprint; `OnlineCount(ps[..i+1])` is
      the value of the running counter after entry `i`. */
  function OnlineCount(ps: PeerEntries): nat
  {
    if ps == [] then 0
    else OnlineCount(ps[..|ps| - 1]) + (if OnlineWithFpr(ps[|ps| - 1].1) then 1 else 0)
  }

  /** The counter never exceeds the number of peers, and reaches it exactly
      when every peer is online with a fingerprint. */
  lemma {:induction false} OnlineCountBound(ps: PeerEntries)
    ensures OnlineCount(ps) <= |ps|
    ensures OnlineCount(ps) == |ps| <==> forall i :: 0 <= i < |ps| ==> OnlineWithFpr(ps[i].1)
  {
    if ps != [] {
      var init := ps[..|ps| - 1];
      OnlineCountBound(init);
      assert forall i :: 0 <= i < |init| ==> init[i] == ps[i];
    }
  }

  /** The counting loop of the handshake's degree cap. */
  method CountOnline(ps: PeerEntries) returns (n: nat)
    ensures n == OnlineCount(ps)
  {
    n := 0;
    var i := 0;
    while i < |ps|
      invariant 0 <= i <= |ps|
      invariant n == OnlineCount(ps[..i])
    {
      assert ps[..i + 1][..i] == ps[..i];
      if ps[i].1.fpr.Some? && ps[i].1.status == "online" {
        n := n + 1;
      }
      i := i + 1;
    }
    assert ps[..|ps|] == ps;
  }

  /** The offline rule applied to one entry. */
  function OfflineTrim(e: (string, Peer), wait: int): seq<Request>
  {
    if StaleOffline(e.1, wait) then [TrimLink(e.0)] else []
  }

  /** What one pass of the multihop counting loop emits over `ps`: a trim for
      every online peer with a fingerprint once the counter exceeds `cl`. */
  function ExcessTrims(ps: PeerEntries, cl: int): seq<Request>
  {
    if ps == [] then []
    else
      var last := ps[|ps| - 1];
      ExcessTrims(ps[..|ps| - 1], cl)
        + (if OnlineWithFpr(last.1) && OnlineCount(ps) > cl then [TrimLink(last.0)] else [])
  }

  /** What the outer loop of the link trimmer emits over the entries `ps` of the
      snapshot `all`: per entry, its offline trim, then (multihop) a whole pass
      of the inner loop over `all`. */
  function TrimmerRounds(ps: PeerEntries, all: PeerEntries, cfg: Config): seq<Request>
  {
    if ps == [] then []
    else
      TrimmerRounds(ps[..|ps| - 1], all, cfg)
        + OfflineTrim(ps[|ps| - 1], cfg.linkTrimmerWaitTime)
        + (if cfg.multihop then ExcessTrims(all, cfg.multihopCl) else [])
  }

  /** Everything the link trimmer emits for the snapshot `ps`. */
  function LinkTrimmerOut(ps: PeerEntries, cfg: Config): seq<Request>
  {
    TrimmerRounds(ps, ps, cfg)
  }

  /** Reference definition of the offline rule: a trim, in snapshot order,
      for each stale offline peer. */
  function OfflineTrimsRef(ps: PeerEntries, wait: int): seq<Request>
  {
    if ps == [] then [] else OfflineTrim(ps[0], wait) + OfflineTrimsRef(ps[1..], wait)
  }

  lemma {:induction false} OfflineTrimsRefSnoc(ps: PeerEntries, wait: int)
    requires ps != []
    ensures OfflineTrimsRef(ps, wait)
         == OfflineTrimsRef(ps[..|ps| - 1], wait) + OfflineTrim(ps[|ps| - 1], wait)
  {
    if |ps| == 1 {
      assert ps[..0] == [];
    } else {
      OfflineTrimsRefSnoc(ps[1..], wait);
      assert ps[1..][..|ps[1..]| - 1] == ps[..|ps| - 1][1..];
    }
  }

  /** Offline rule: with multihop off the trimmer emits exactly the offline trims, in snapshot order. */
  lemma {:induction false} TrimmerOfflineRule(ps: PeerEntries, all: PeerEntries, cfg: Config)
    requires !cfg.multihop
    ensures TrimmerRounds(ps, all, cfg) == OfflineTrimsRef(ps, cfg.linkTrimmerWaitTime)
  {
    if ps != [] {
      TrimmerOfflineRule(ps[..|ps| - 1], all, cfg);
      OfflineTrimsRefSnoc(ps, cfg.linkTrimmerWaitTime);
    }
  }

  /** The whole output of the trimmer: the offline trims once, and (multihop)
      every inner-loop trim once per entry of the snapshot. */
  lemma {:induction false} TrimmerRoundsCount(ps: PeerEntries, all: PeerEntries, cfg: Config, t: Request)
    ensures multiset(TrimmerRounds(ps, all, cfg))[t]
         == multiset(OfflineTrimsRef(ps, cfg.linkTrimmerWaitTime))[t]
            + (if cfg.multihop then |ps| * multiset(ExcessTrims(all, cfg.multihopCl))[t] else 0)
  {
    if ps != [] {
      var init := ps[..|ps| - 1];
      var wait := cfg.linkTrimmerWaitTime;
      var e := if cfg.multihop then ExcessTrims(all, cfg.multihopCl) else [];
      var o := OfflineTrim(ps[|ps| - 1], wait);
      var before := TrimmerRounds(init, all, cfg);
      var c := multiset(ExcessTrims(all, cfg.multihopCl))[t];
      TrimmerRoundsCount(init, all, cfg, t);
      OfflineTrimsRefSnoc(ps, wait);
      assert TrimmerRounds(ps, all, cfg) == before + o + e;
      CountConcat(before, o, e, t);
      CountConcat(OfflineTrimsRef(init, wait), o, [], t);
      assert OfflineTrimsRef(init, wait) + o + [] == OfflineTrimsRef(ps, wait);
      assert multiset(e)[t] == if cfg.multihop then c else 0;
      MulStep(|init|, c);
    }
  }

  lemma MulStep(n: nat, c: nat)
    ensures (n + 1) * c == n * c + c
  {
  }

  lemma CountConcat(a: seq<Request>, b: seq<Request>, c: seq<Request>, t: Request)
    ensures multiset(a + b + c)[t] == multiset(a)[t] + multiset(b)[t] + multiset(c)[t]
  {
    assert multiset(a + b + c) == multiset(a) + multiset(b) + multiset(c);
  }

  /** Number of trims one inner pass emits: every online peer beyond the first `cl`. */
  lemma {:induction false} ExcessTrimsLength(ps: PeerEntries, cl: int)
    ensures |ExcessTrims(ps, cl)|
         == if OnlineCount(ps) > cl then OnlineCount(ps) - (if cl < 0 then 0 else cl) else 0
  {
    if ps != [] {
      ExcessTrimsLength(ps[..|ps| - 1], cl);
    }
  }

  /** An inner pass never trims a key the snapshot does not hold. */
  lemma {:induction false} ExcessTrimsAbsent(ps: PeerEntries, cl: int, k: string)
    requires forall i :: 0 <= i < |ps| ==> ps[i].0 != k
    ensures multiset(ExcessTrims(ps, cl))[TrimLink(k)] == 0
  {
    if ps != [] {
      var init := ps[..|ps| - 1];
      var last := ps[|ps| - 1];
      assert forall i :: 0 <= i < |init| ==> init[i] == ps[i];
      ExcessTrimsAbsent(init, cl, k);
      var tail := if OnlineWithFpr(last.1) && OnlineCount(ps) > cl then [TrimLink(last.0)] else [];
      CountConcat(ExcessTrims(init, cl), tail, [], TrimLink(k));
      assert ExcessTrims(init, cl) + tail + [] == ExcessTrims(ps, cl);
    }
  }

  /** The offline rule never trims a key the snapshot does not hold. */
  lemma {:induction false} OfflineTrimsAbsent(ps: PeerEntries, wait: int, k: string)
    requires forall i :: 0 <= i < |ps| ==> ps[i].0 != k
    ensures multiset(OfflineTrimsRef(ps, wait))[TrimLink(k)] == 0
  {
    if ps != [] {
      var rest := ps[1..];
      assert forall i :: 0 <= i < |rest| ==> rest[i] == ps[i + 1];
      OfflineTrimsAbsent(rest, wait, k);
      CountConcat(OfflineTrim(ps[0], wait), OfflineTrimsRef(rest, wait), [], TrimLink(k));
      assert OfflineTrim(ps[0], wait) + OfflineTrimsRef(rest, wait) + [] == OfflineTrimsRef(ps, wait);
    }
  }

  /** One inner pass trims peer `i` once if it is online and its rank among the
      online peers exceeds `cl`, and not at all otherwise; in particular the
      first `cl` online peers are never trimmed by the multihop rule. */
  lemma {:induction false} ExcessTrimsPerPeer(ps: PeerEntries, cl: int, i: nat)
    requires DistinctKeys(ps) && i < |ps|
    ensures multiset(ExcessTrims(ps, cl))[TrimLink(ps[i].0)]
         == if OnlineWithFpr(ps[i].1) && OnlineCount(ps[..i + 1]) > cl then 1 else 0
  {
    var init := ps[..|ps| - 1];
    var k := ps[i].0;
    ExcessTrimsSnocCount(ps, cl, k);
    if i < |ps| - 1 {
      assert DistinctKeys(init) by {
        forall a, b | 0 <= a < b < |init| ensures init[a].0 != init[b].0 {
          assert init[a] == ps[a] && init[b] == ps[b];
        }
      }
      ExcessTrimsPerPeer(init, cl, i);
      assert init[i] == ps[i];
      assert init[..i + 1] == ps[..i + 1];
    } else {
      assert ps[..i + 1] == ps;
      assert forall j :: 0 <= j < |init| ==> init[j].0 != k by {
        forall j | 0 <= j < |init| ensures init[j].0 != k {
          assert init[j] == ps[j];
        }
      }
      ExcessTrimsAbsent(init, cl, k);
    }
  }

  /** Count of one trim in an inner pass, split at the last entry. */
  lemma ExcessTrimsSnocCount(ps: PeerEntries, cl: int, k: string)
    requires ps != []
    ensures var last := ps[|ps| - 1];
      multiset(ExcessTrims(ps, cl))[TrimLink(k)]
        == multiset(ExcessTrims(ps[..|ps| - 1], cl))[TrimLink(k)]
           + (if last.0 == k && OnlineWithFpr(last.1) && OnlineCount(ps) > cl then 1 else 0)
  {
    var last := ps[|ps| - 1];
    var tail := if OnlineWithFpr(last.1) && OnlineCount(ps) > cl then [TrimLink(last.0)] else [];
    assert ExcessTrims(ps[..|ps| - 1], cl) + tail + [] == ExcessTrims(ps, cl);
    CountConcat(ExcessTrims(ps[..|ps| - 1], cl), tail, [], TrimLink(k));
  }

  /** The offline rule trims peer `i` once if it is stale and offline, and not at all otherwise. */
  lemma {:induction false} OfflineTrimsPerPeer(ps: PeerEntries, wait: int, i: nat)
    requires DistinctKeys(ps) && i < |ps|
    ensures multiset(OfflineTrimsRef(ps, wait))[TrimLink(ps[i].0)]
         == if StaleOffline(ps[i].1, wait) then 1 else 0
  {
    var rest := ps[1..];
    var k := ps[i].0;
    assert OfflineTrim(ps[0], wait) + OfflineTrimsRef(rest, wait) + [] == OfflineTrimsRef(ps, wait);
    CountConcat(OfflineTrim(ps[0], wait), OfflineTrimsRef(rest, wait), [], TrimLink(k));
    assert forall j :: 0 <= j < |rest| ==> rest[j] == ps[j + 1];
    if i == 0 {
      OfflineTrimsAbsent(rest, wait, k);
    } else {
      OfflineTrimsPerPeer(rest, wait, i - 1);
      assert ps[0].0 != k;
    }
  }

  /** How often the link trimmer trims one peer of a snapshot: once if it is
      stale and offline, and `|ps|` times (once per outer iteration) if multihop
      is on and it is an online peer past the first `multihopCl`. A peer without
      a fingerprint is never trimmed. */
  lemma TrimCountPerPeer(ps: PeerEntries, cfg: Config, i: nat)
    requires DistinctKeys(ps) && i < |ps|
    ensures multiset(LinkTrimmerOut(ps, cfg))[TrimLink(ps[i].0)]
         == (if StaleOffline(ps[i].1, cfg.linkTrimmerWaitTime) then 1 else 0)
            + (if cfg.multihop && OnlineWithFpr(ps[i].1) && OnlineCount(ps[..i + 1]) > cfg.multihopCl
               then |ps| else 0)
    ensures ps[i].1.fpr.None? ==> TrimLink(ps[i].0) !in LinkTrimmerOut(ps, cfg)
  {
    TrimmerRoundsCount(ps, ps, cfg, TrimLink(ps[i].0));
    OfflineTrimsPerPeer(ps, cfg.linkTrimmerWaitTime, i);
    ExcessTrimsPerPeer(ps, cfg.multihopCl, i);
  }

  /** Every request of `out` trims the link to some peer of `ps`. */
  ghost predicate TrimsKeysOf(out: seq<Request>, ps: PeerEntries)
  {
    forall t :: t in out ==> exists j :: 0 <= j < |ps| && t == TrimLink(ps[j].0)
  }

  /** An inner pass only trims peers of its snapshot. */
  lemma {:induction false} ExcessTrimsKeys(ps: PeerEntries, cl: int)
    ensures TrimsKeysOf(ExcessTrims(ps, cl), ps)
  {
    if ps != [] {
      var init := ps[..|ps| - 1];
      ExcessTrimsKeys(init, cl);
      forall t | t in ExcessTrims(ps, cl) ensures exists j :: 0 <= j < |ps| && t == TrimLink(ps[j].0) {
        if t in ExcessTrims(init, cl) {
          var j :| 0 <= j < |init| && t == TrimLink(init[j].0);
          assert init[j] == ps[j];
        } else {
          assert t == TrimLink(ps[|ps| - 1].0);
        }
      }
    }
  }

  /** The outer rounds over a prefix of the snapshot only trim peers of the snapshot. */
  lemma {:induction false} TrimmerRoundsKeys(ps: PeerEntries, all: PeerEntries, cfg: Config)
    requires |ps| <= |all| && ps == all[..|ps|]
    ensures TrimsKeysOf(TrimmerRounds(ps, all, cfg), all)
  {
    if ps != [] {
      var init := ps[..|ps| - 1];
      assert init == all[..|init|];
      TrimmerRoundsKeys(init, all, cfg);
      ExcessTrimsKeys(all, cfg.multihopCl);
      forall t | t in TrimmerRounds(ps, all, cfg) ensures exists j :: 0 <= j < |all| && t == TrimLink(all[j].0) {
        if t in OfflineTrim(ps[|ps| - 1], cfg.linkTrimmerWaitTime) {
          assert ps[|ps| - 1] == all[|ps| - 1];
        }
      }
    }
  }

  /** The link trimmer issues nothing but TRIM_LINK requests, each for a peer of the snapshot. */
  lemma TrimmerOutKeys(ps: PeerEntries, cfg: Config)
    ensures forall t :: t in LinkTrimmerOut(ps, cfg) ==> exists j :: 0 <= j < |ps| && t == TrimLink(ps[j].0)
  {
    assert ps[..|ps|] == ps;
    TrimmerRoundsKeys(ps, ps, cfg);
  }

  /** Scenario: one offline peer idle 120 against a threshold of 60 is trimmed; idle 30 it is not. */
  lemma OfflineExample()
    ensures var cfg := Config(false, 0, false, 60);
      && LinkTrimmerOut([("p", Peer(Some("f"), "offline", 120))], cfg) == [TrimLink("p")]
      && LinkTrimmerOut([("p", Peer(Some("f"), "offline", 30))], cfg) == []
  {
    var cfg := Config(false, 0, false, 60);
    TrimmerOfflineRule([("p", Peer(Some("f"), "offline", 120))], [("p", Peer(Some("f"), "offline", 120))], cfg);
    TrimmerOfflineRule([("p", Peer(Some("f"), "offline", 30))], [("p", Peer(Some("f"), "offline", 30))], cfg);
  }

  /** Multihop with a cap of 2 and three online peers: the third peer is
      trimmed three times, once per outer iteration (not once). */
  lemma MultihopExample()
    ensures var on := Peer(Some("f"), "online", 0);
      LinkTrimmerOut([("a", on), ("b", on), ("c", on)], Config(true, 2, false, 60))
        == [TrimLink("c"), TrimLink("c"), TrimLink("c")]
  {
    var on := Peer(Some("f"), "online", 0);
    var ps := [("a", on), ("b", on), ("c", on)];
    var cfg := Config(true, 2, false, 60);
    assert ps[..2] == [("a", on), ("b", on)];
    assert ps[..2][..1] == [("a", on)];
    assert ps[..2][..1][..0] == [];
    assert OnlineCount(ps[..2][..1]) == 1;
    assert OnlineCount(ps[..2]) == 2;
    assert OnlineCount(ps) == 3;
    assert ExcessTrims(ps[..2][..1], 2) == [];
    assert ExcessTrims(ps[..2], 2) == [];
    assert ExcessTrims(ps, 2) == [TrimLink("c")];
    assert TrimmerRounds(ps[..2][..1], ps, cfg) == [TrimLink("c")];
    assert TrimmerRounds(ps[..2], ps, cfg) == [TrimLink("c"), TrimLink("c")];
  }
}
