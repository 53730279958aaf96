// Connection-event membership controller of a Kademlia DHT node.
//
// The network delivers connect and disconnect notifications; the node keeps its
// routing table in line with them. Each handler runs as one atomic step here:
// the locks that serialise them and the goroutines they start are left out.
// Whether the node is shutting down (`closing`) and which peers are connected
// right now (`live`) are inputs to each step.

module Notif {

  type PeerId = string
  type ProtocolId = string

  /** The refresh trigger is a channel with a buffer of one: a send never blocks and extra sends are dropped. */
  const RefreshCapacity: nat := 1

  /** The fixed part of the node that the handlers consult. */
  datatype Params = Params(protocols: set<ProtocolId>, autoRefresh: bool, minRTRefreshThreshold: nat)

  /** The state the handlers change, as a value. */
  datatype Membership = Membership(
    routingTable: set<PeerId>,
    peerstore: map<PeerId, set<ProtocolId>>,
    protectedPeers: set<PeerId>,
    pendingRefresh: nat)

  /** What the probe of a fresh connection came to. */
  datatype ProbeOutcome = StreamOpenFailed | NegotiationFailed | Selected(proto: ProtocolId)

  /** The peerstore already knows that q speaks one of the node's protocols. */
  predicate SupportsDht(k: Params, ps: map<PeerId, set<ProtocolId>>, q: PeerId): (b: bool)
    ensures q !in ps ==> !b
    ensures q in ps && ps[q] == {} ==> !b
    ensures k.protocols == {} ==> !b
  {
    q in ps && ps[q] * k.protocols != {}
  }

  /** Cached support means the peerstore lists at least one of the node's protocols for q. */
  lemma SupportsDhtWitness(k: Params, ps: map<PeerId, set<ProtocolId>>, q: PeerId)
    ensures SupportsDht(k, ps, q) <==> q in ps && exists proto :: proto in ps[q] && proto in k.protocols
  {
    if SupportsDht(k, ps, q) {
      var proto :| proto in ps[q] * k.protocols;
      assert proto in ps[q] && proto in k.protocols;
    }
    if q in ps && exists proto :: proto in ps[q] && proto in k.protocols {
      var proto :| proto in ps[q] && proto in k.protocols;
      assert proto in ps[q] * k.protocols;
    }
  }

  /** A non-blocking send on the refresh channel. */
  function Signal(pending: nat): (r: nat)
    ensures pending < RefreshCapacity ==> r == pending + 1
    ensures pending >= RefreshCapacity ==> r == pending
  {
    if pending < RefreshCapacity then pending + 1 else pending
  }

  /** `n` sends in a row. */
  function Signals(pending: nat, n: nat): nat
  {
    if n == 0 then pending else Signal(Signals(pending, n - 1))
  }

  /** However many sends happen, at most one refresh is pending, and one is pending as soon as anything was sent. */
  lemma {:induction false} SignalsCoalesce(pending: nat, n: nat)
    requires pending <= RefreshCapacity
    ensures Signals(pending, n) == if n == 0 then pending else RefreshCapacity
  {
    if n > 0 {
      SignalsCoalesce(pending, n - 1);
    }
  }

  /** Records that p speaks `proto`, keeping what was known before. */
  function AddProtocol(ps: map<PeerId, set<ProtocolId>>, p: PeerId, proto: ProtocolId): (r: map<PeerId, set<ProtocolId>>)
    ensures r.Keys == ps.Keys + {p}
    ensures proto in r[p]
    ensures p in ps ==> ps[p] <= r[p]
    ensures r[p] == (if p in ps then ps[p] else {}) + {proto}
    ensures forall q :: q in ps && q != p ==> r[q] == ps[q]
  {
    ps[p := (if p in ps then ps[p] else {}) + {proto}]
  }

  /** Whether admitting a peer now would try to trigger a refresh: the table is small before the update. */
  predicate WantsRefresh(k: Params, m: Membership): (b: bool)
    ensures !k.autoRefresh ==> !b
    ensures m.routingTable == {} ==> b == k.autoRefresh
    ensures b ==> |m.routingTable| <= k.minRTRefreshThreshold
  {
    k.autoRefresh && |m.routingTable| <= k.minRTRefreshThreshold
  }

  /**
   * The locked admission shared by the connect handler and the probe: if p is
   * still connected, add it to the table and, when the table was small, try to
   * signal a refresh.
   */
  function AdmitStep(k: Params, m: Membership, p: PeerId, live: set<PeerId>): (r: Membership)
    ensures p !in live ==> r == m
    ensures p in live ==> r.routingTable == m.routingTable + {p}
    ensures r.peerstore == m.peerstore && r.protectedPeers == m.protectedPeers
    ensures r.pendingRefresh > m.pendingRefresh
            <==> p in live && WantsRefresh(k, m) && m.pendingRefresh < RefreshCapacity
    ensures r.pendingRefresh == m.pendingRefresh || r.pendingRefresh == m.pendingRefresh + 1
    ensures m.pendingRefresh <= RefreshCapacity ==> r.pendingRefresh <= RefreshCapacity
  {
    if p !in live then m
    else
      var refresh := |m.routingTable| <= k.minRTRefreshThreshold;
      m.(routingTable := m.routingTable + {p},
         pendingRefresh := if refresh && k.autoRefresh then Signal(m.pendingRefresh) else m.pendingRefresh)
  }

  /** The connect handler sends the connection off to be probed: not closing and no cached support. */
  predicate ProbeDispatched(k: Params, m: Membership, p: PeerId, closing: bool)
  {
    !closing && !SupportsDht(k, m.peerstore, p)
  }

  /** The connect handler's effect on the state (a dispatched probe changes nothing yet). */
  function ConnectedStep(k: Params, m: Membership, p: PeerId, closing: bool, live: set<PeerId>): (r: Membership)
    ensures closing || !SupportsDht(k, m.peerstore, p) ==> r == m
    ensures p !in live ==> r == m
    ensures m.routingTable <= r.routingTable
    ensures r.routingTable - m.routingTable <= {p}
    ensures !closing && SupportsDht(k, m.peerstore, p) && p in live ==> r.routingTable == m.routingTable + {p}
    ensures r.peerstore == m.peerstore && r.protectedPeers == m.protectedPeers
    ensures r.pendingRefresh > m.pendingRefresh
            <==> !closing && SupportsDht(k, m.peerstore, p) && p in live
                 && WantsRefresh(k, m) && m.pendingRefresh < RefreshCapacity
    ensures r.pendingRefresh == m.pendingRefresh || r.pendingRefresh == m.pendingRefresh + 1
    ensures m.pendingRefresh <= RefreshCapacity ==> r.pendingRefresh <= RefreshCapacity
  {
    if closing then m
    else if SupportsDht(k, m.peerstore, p) then AdmitStep(k, m, p, live)
    else m
  }

  /**
   * The probe's effect: a failed stream or negotiation changes nothing; a
   * selected protocol is remembered and then the peer goes through the same
   * admission as on connect. The probe does not look at the closing signal.
   */
  function ProbeStep(k: Params, m: Membership, p: PeerId, outcome: ProbeOutcome, live: set<PeerId>): (r: Membership)
    requires outcome.Selected? ==> outcome.proto in k.protocols
    ensures !outcome.Selected? ==> r == m
    ensures outcome.Selected? ==> SupportsDht(k, r.peerstore, p)
    ensures outcome.Selected? ==> r.peerstore == AddProtocol(m.peerstore, p, outcome.proto)
    ensures outcome.Selected? ==> r.routingTable == m.routingTable + (if p in live then {p} else {})
    ensures r.protectedPeers == m.protectedPeers
    ensures r.pendingRefresh > m.pendingRefresh
            <==> outcome.Selected? && p in live && WantsRefresh(k, m) && m.pendingRefresh < RefreshCapacity
    ensures r.pendingRefresh == m.pendingRefresh || r.pendingRefresh == m.pendingRefresh + 1
    ensures m.pendingRefresh <= RefreshCapacity ==> r.pendingRefresh <= RefreshCapacity
  {
    match outcome
    case StreamOpenFailed => m
    case NegotiationFailed => m
    case Selected(proto) =>
      var ps := AddProtocol(m.peerstore, p, proto);
      assert proto in ps[p] * k.protocols;
      AdmitStep(k, m.(peerstore := ps), p, live)
  }

  /** The connected peers a sparse table takes back after a disconnect: those with cached support. */
  function Readmitted(k: Params, ps: map<PeerId, set<ProtocolId>>, live: set<PeerId>): (r: set<PeerId>)
    ensures r <= live
    ensures forall q :: q in live ==> (q in r <==> SupportsDht(k, ps, q))
  {
    set q | q in live && SupportsDht(k, ps, q)
  }

  /** Whether, after removing p, the table is sparse enough to take back connected peers. */
  predicate Sparse(k: Params, m: Membership, p: PeerId): (b: bool)
    ensures b <==> |m.routingTable| - (if p in m.routingTable then 1 else 0) < k.minRTRefreshThreshold
  {
    |m.routingTable - {p}| < k.minRTRefreshThreshold
  }

  /**
   * The disconnect handler's effect on the state: nothing when closing or when
   * p is still connected; otherwise p leaves the table and the protected set,
   * and a sparse table takes back the connected peers with cached support.
   * No refresh is signalled on this path and the peerstore is not touched.
   */
  function DisconnectedStep(k: Params, m: Membership, p: PeerId, closing: bool, live: set<PeerId>): (r: Membership)
    ensures closing || p in live ==> r == m
    ensures !closing && p !in live ==> p !in r.routingTable && p !in r.protectedPeers
    ensures !closing && p !in live ==> r.protectedPeers == m.protectedPeers - {p}
    ensures !closing && p !in live && Sparse(k, m, p)
            ==> r.routingTable == (m.routingTable - {p}) + Readmitted(k, m.peerstore, live)
    ensures !closing && p !in live && !Sparse(k, m, p) ==> r.routingTable == m.routingTable - {p}
    ensures r.peerstore == m.peerstore && r.pendingRefresh == m.pendingRefresh
  {
    if closing || p in live then m
    else
      var rt := m.routingTable - {p};
      m.(routingTable := if |rt| < k.minRTRefreshThreshold then rt + Readmitted(k, m.peerstore, live) else rt,
         protectedPeers := m.protectedPeers - {p})
  }

  /** One notification, with the environment it is handled in. */
  datatype Event =
    | Connect(p: PeerId, closing: bool, live: set<PeerId>)
    | Probe(p: PeerId, outcome: ProbeOutcome, live: set<PeerId>)
    | Disconnect(p: PeerId, closing: bool, live: set<PeerId>)

  /** A probe can only select one of the protocols the node offered. */
  predicate WellFormed(k: Params, e: Event)
  {
    e.Probe? && e.outcome.Selected? ==> e.outcome.proto in k.protocols
  }

  function Step(k: Params, m: Membership, e: Event): Membership
    requires WellFormed(k, e)
  {
    match e
    case Connect(p, closing, live) => ConnectedStep(k, m, p, closing, live)
    case Probe(p, outcome, live) => ProbeStep(k, m, p, outcome, live)
    case Disconnect(p, closing, live) => DisconnectedStep(k, m, p, closing, live)
  }

  function Run(k: Params, m: Membership, events: seq<Event>): Membership
    requires forall i :: 0 <= i < |events| ==> WellFormed(k, events[i])
  {
    if |events| == 0 then m else Step(k, Run(k, m, events[..|events| - 1]), events[|events| - 1])
  }

  /** Under any sequence of notifications the refresh slot never holds more than one signal. */
  lemma {:induction false} RunKeepsOneRefresh(k: Params, m: Membership, events: seq<Event>)
    requires forall i :: 0 <= i < |events| ==> WellFormed(k, events[i])
    requires m.pendingRefresh <= RefreshCapacity
    ensures Run(k, m, events).pendingRefresh <= RefreshCapacity
  {
    if |events| > 0 {
      RunKeepsOneRefresh(k, m, events[..|events| - 1]);
    }
  }

  /** Under any sequence of notifications, peers only join the table with cached or just-negotiated support. */
  lemma {:induction false} RunAdmitsOnlySupporting(k: Params, m: Membership, events: seq<Event>)
    requires forall i :: 0 <= i < |events| ==> WellFormed(k, events[i])
    requires forall q :: q in m.routingTable ==> SupportsDht(k, m.peerstore, q)
    ensures forall q :: q in Run(k, m, events).routingTable ==> SupportsDht(k, Run(k, m, events).peerstore, q)
  {
    if |events| > 0 {
      var before := Run(k, m, events[..|events| - 1]);
      RunAdmitsOnlySupporting(k, m, events[..|events| - 1]);
      StepAdmitsOnlySupporting(k, before, events[|events| - 1]);
    }
  }

  lemma StepAdmitsOnlySupporting(k: Params, m: Membership, e: Event)
    requires WellFormed(k, e)
    requires forall q :: q in m.routingTable ==> SupportsDht(k, m.peerstore, q)
    ensures forall q :: q in Step(k, m, e).routingTable ==> SupportsDht(k, Step(k, m, e).peerstore, q)
  {
    match e
    case Connect(p, closing, live) =>
    case Probe(p, outcome, live) =>
      if outcome.Selected? {
        ProbeKeepsSupport(k, m, p, outcome.proto, live);
      }
    case Disconnect(p, closing, live) =>
  }

  /** Recording a negotiated protocol never takes cached support away from anyone. */
  lemma ProbeKeepsSupport(k: Params, m: Membership, p: PeerId, proto: ProtocolId, live: set<PeerId>)
    requires proto in k.protocols
    requires forall q :: q in m.routingTable ==> SupportsDht(k, m.peerstore, q)
    ensures var r := ProbeStep(k, m, p, Selected(proto), live);
            forall q :: q in r.routingTable ==> SupportsDht(k, r.peerstore, q)
  {
    var ps := AddProtocol(m.peerstore, p, proto);
    forall q | q in m.routingTable
      ensures SupportsDht(k, ps, q)
    {
      if q != p {
        assert ps[q] == m.peerstore[q];
      }
    }
  }

  /**
   * Table membership implies connectivity: if every member was connected
   * before p dropped, the disconnect of p restores that every member is connected.
   */
  lemma DisconnectRestoresConnectivity(k: Params, m: Membership, p: PeerId, live: set<PeerId>)
    requires m.routingTable <= live + {p}
    requires p !in live
    ensures DisconnectedStep(k, m, p, false, live).routingTable <= live
  {
  }

  /** Connects and probes keep every member connected. */
  lemma AdmissionKeepsConnectivity(k: Params, m: Membership, e: Event)
    requires WellFormed(k, e) && !e.Disconnect?
    requires m.routingTable <= e.live
    ensures Step(k, m, e).routingTable <= e.live
  {
  }

  /**
   * A connect handled after the disconnect of the same connection (the
   * reordering the lock and re-check guard against) does not bring p back.
   */
  lemma StaleConnectAfterDisconnect(k: Params, m: Membership, p: PeerId, live: set<PeerId>, outcome: ProbeOutcome)
    requires p !in live
    requires outcome.Selected? ==> outcome.proto in k.protocols
    ensures var d := DisconnectedStep(k, m, p, false, live);
            p !in ConnectedStep(k, d, p, false, live).routingTable
            && p !in ProbeStep(k, d, p, outcome, live).routingTable
  {
  }

  /** A disconnect that arrives while the peer has already reconnected leaves everything as it was. */
  lemma StaleDisconnectKeepsPeer(k: Params, m: Membership, p: PeerId, live: set<PeerId>)
    requires p in live && p in m.routingTable
    ensures p in DisconnectedStep(k, m, p, false, live).routingTable
  {
  }

  /** Once a probe has negotiated a protocol, the next connect of that peer takes the cached fast path. */
  lemma ProbeThenConnectFastPath(k: Params, m: Membership, p: PeerId, proto: ProtocolId, live: set<PeerId>)
    requires proto in k.protocols
    ensures var after := ProbeStep(k, m, p, Selected(proto), live);
            !ProbeDispatched(k, after, p, false)
            && (p in live ==> p in ConnectedStep(k, after, p, false, live).routingTable)
  {
  }

  /** Handling the same disconnect twice has the effect of handling it once. */
  lemma {:induction false} DisconnectIdempotent(k: Params, m: Membership, p: PeerId, live: set<PeerId>)
    ensures var once := DisconnectedStep(k, m, p, false, live);
            DisconnectedStep(k, once, p, false, live) == once
  {
    if p !in live {
      var once := DisconnectedStep(k, m, p, false, live);
      var r := Readmitted(k, m.peerstore, live);
      assert p !in once.routingTable;
      assert once.routingTable - {p} == once.routingTable;
      if Sparse(k, m, p) && !Sparse(k, once, p) {
        assert r <= once.routingTable;
      }
    }
  }

  /**
   * A sparse table after a disconnect: every connected peer with cached
   * support is a member afterwards, and every newcomer is such a peer.
   */
  lemma SparseRecovery(k: Params, m: Membership, p: PeerId, live: set<PeerId>)
    requires p !in live && Sparse(k, m, p)
    ensures var r := DisconnectedStep(k, m, p, false, live);
            (forall q :: q in live && SupportsDht(k, m.peerstore, q) ==> q in r.routingTable)
            && (forall q :: q in r.routingTable && q !in m.routingTable ==> q in live && SupportsDht(k, m.peerstore, q))
  {
  }

  /** The per-peer message sender; a disconnect invalidates it so that no further request uses it. */
  class MessageSender {
    const peer: PeerId
    var invalidated: bool

    constructor (p: PeerId)
      ensures peer == p && !invalidated
    {
      peer := p;
      invalidated := false;
    }

    method Invalidate()
      modifies this
      ensures invalidated
    {
      invalidated := true;
    }
  }

  /** The node's mutable membership state, updated in place by the handlers. */
  class Dht {
    const params: Params
    var routingTable: set<PeerId>
    var peerstore: map<PeerId, set<ProtocolId>>
    var protectedPeers: set<PeerId>
    var pendingRefresh: nat
    var strmap: map<PeerId, MessageSender>

    function State(): Membership
      reads this
    {
      Membership(routingTable, peerstore, protectedPeers, pendingRefresh)
    }

    /** Each stream-map entry is the sender of the peer it is filed under; the refresh slot holds at most one signal. */
    ghost predicate Valid()
      reads this, strmap.Values
    {
      pendingRefresh <= RefreshCapacity
      && forall q :: q in strmap ==> strmap[q].peer == q
    }

    constructor (k: Params)
      ensures params == k && Valid()
      ensures State() == Membership({}, map[], {}, 0) && strmap == map[]
    {
      params := k;
      routingTable := {};
      peerstore := map[];
      protectedPeers := {};
      pendingRefresh := 0;
      strmap := map[];
    }

    /** The locked admission shared by the connect handler and the probe: re-check connectedness, admit, maybe signal. */
    method Admit(p: PeerId, live: set<PeerId>)
      modifies this`routingTable, this`pendingRefresh
      ensures State() == AdmitStep(params, old(State()), p, live)
    {
      if p in live {
        var refresh := |routingTable| <= params.minRTRefreshThreshold;
        routingTable := routingTable + {p};
        if refresh && params.autoRefresh {
          if pendingRefresh < RefreshCapacity {
            pendingRefresh := pendingRefresh + 1;
          }
        }
      }
    }

    /** The connect notification; `probe` says whether the connection was sent off to be probed. */
    method Connected(p: PeerId, closing: bool, live: set<PeerId>) returns (probe: bool)
      requires Valid()
      modifies this`routingTable, this`pendingRefresh
      ensures Valid()
      ensures State() == ConnectedStep(params, old(State()), p, closing, live)
      ensures probe == ProbeDispatched(params, old(State()), p, closing)
    {
      if closing {
        return false;
      }
      if p in peerstore && peerstore[p] * params.protocols != {} {
        Admit(p, live);
        return false;
      }
      probe := true;
    }

    /** The probe of a fresh connection, given what opening the stream and negotiating came to. */
    method TestConnection(p: PeerId, outcome: ProbeOutcome, live: set<PeerId>)
      requires Valid()
      requires outcome.Selected? ==> outcome.proto in params.protocols
      modifies this`peerstore, this`routingTable, this`pendingRefresh
      ensures Valid()
      ensures State() == ProbeStep(params, old(State()), p, outcome, live)
    {
      match outcome
      case StreamOpenFailed =>
        return;
      case NegotiationFailed =>
        return;
      case Selected(proto) =>
        peerstore := AddProtocol(peerstore, p, proto);
        Admit(p, live);
    }

    /** Takes back every connected peer with cached support, one at a time. */
    method ReadmitConnected(live: set<PeerId>)
      modifies this`routingTable
      ensures routingTable == old(routingTable) + Readmitted(params, peerstore, live)
    {
      var rest := live;
      ghost var base := routingTable;
      while rest != {}
        invariant rest <= live
        invariant routingTable == base + Readmitted(params, peerstore, live - rest)
        decreases |rest|
      {
        var q :| q in rest;
        if q in peerstore && peerstore[q] * params.protocols != {} {
          routingTable := routingTable + {q};
        }
        ReadmittedGrows(params, peerstore, live, rest, q);
        rest := rest - {q};
      }
      assert live - rest == live;
    }

    /** Drops p's stream-map entry, if there is one, and invalidates the sender it held. */
    method DropSender(p: PeerId)
      modifies this`strmap, if p in strmap then {strmap[p]} else {}
      ensures strmap == old(strmap) - {p}
      ensures p in old(strmap) ==> old(strmap[p]).invalidated
    {
      if p !in strmap {
        return;
      }
      var ms := strmap[p];
      strmap := strmap - {p};
      ms.Invalidate();
    }

    /** The disconnect notification. */
    method Disconnected(p: PeerId, closing: bool, live: set<PeerId>)
      requires Valid()
      modifies this`routingTable, this`protectedPeers, this`strmap, strmap.Values
      ensures Valid()
      ensures State() == DisconnectedStep(params, old(State()), p, closing, live)
      ensures strmap == if closing || p in live then old(strmap) else old(strmap) - {p}
      ensures !closing && p !in live && p in old(strmap) ==> old(strmap[p]).invalidated
      ensures forall q :: q in strmap ==> strmap[q].invalidated == old(strmap[q].invalidated)
    {
      if closing || p in live {
        return;
      }
      Forget(p, live);
      DropSender(p);
    }

    /** The table part of a disconnect: p leaves the table and the protected set; a sparse table takes back connected peers. */
    method Forget(p: PeerId, live: set<PeerId>)
      requires p !in live
      modifies this`routingTable, this`protectedPeers
      ensures State() == DisconnectedStep(params, old(State()), p, false, live)
    {
      routingTable := routingTable - {p};
      protectedPeers := protectedPeers - {p};
      if |routingTable| < params.minRTRefreshThreshold {
        ReadmitConnected(live);
      }
    }
  }

  /** Looking at one more connected peer adds it exactly when it has cached support. */
  lemma ReadmittedGrows(k: Params, ps: map<PeerId, set<ProtocolId>>, live: set<PeerId>, rest: set<PeerId>, q: PeerId)
    requires q in rest && rest <= live
    ensures Readmitted(k, ps, live - (rest - {q}))
         == Readmitted(k, ps, live - rest) + (if SupportsDht(k, ps, q) then {q} else {})
  {
    assert live - (rest - {q}) == (live - rest) + {q};
  }
}
