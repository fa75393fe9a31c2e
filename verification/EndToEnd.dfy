/**
 * The whole input path as the far end of the link sees it: reports into the relay, frames out of it, cut into
 * ACL fragments on the air and recombined. It joins src/bluetooth/HidRelay.cpp to both halves of
 * src/bluetooth/L2cap.cpp.
 */
module EndToEnd {
  import opened Bytes
  import L2cap
  import opened Framing
  import Relay
  import AclFlow

  type Delivery = Relay.Delivery

  /** The deliveries the socket took on one link and channel. */
  function Written(ds: seq<Delivery>, link: u16, cid: u16): seq<Delivery> {
    if ds == [] then []
    else
      var rest, d := Written(ds[..|ds| - 1], link, cid), ds[|ds| - 1];
      if d.frame.Some? && d.link == link && d.cid == cid then rest + [d] else rest
  }

  /** The PDU inside the frame: what is left behind the indicator byte and the ACL header. */
  function InFrame(d: Delivery): seq<byte> {
    if d.frame.None? || |d.frame.value| < FRAME_OVERHEAD then [] else d.frame.value[1 + L2cap.ACL_HDR..]
  }

  function InFrames(ds: seq<Delivery>): seq<seq<byte>> {
    seq(|ds|, i requires 0 <= i < |ds| => InFrame(ds[i]))
  }

  function Payloads(ds: seq<Delivery>): seq<seq<byte>> {
    seq(|ds|, i requires 0 <= i < |ds| => ds[i].payload)
  }

  /** Those of the PDUs that name one channel. */
  function OnChannel(pdus: seq<seq<byte>>, cid: u16): seq<seq<byte>> {
    if pdus == [] then []
    else
      var rest, pdu := OnChannel(pdus[..|pdus| - 1], cid), pdus[|pdus| - 1];
      if |pdu| >= L2cap.L2CAP_HDR && Word(pdu, 2) == cid then rest + [pdu] else rest
  }

  /** The payloads routing hands to one channel. */
  function Received(pdus: seq<seq<byte>>, cid: u16): seq<seq<byte>> {
    if pdus == [] then []
    else
      var rest, routing := Received(pdus[..|pdus| - 1], cid), L2cap.Route(pdus[|pdus| - 1]);
      if routing.Payload? && routing.cid == cid then rest + [routing.bytes] else rest
  }

  lemma {:induction false} ReceivedConcat(a: seq<seq<byte>>, b: seq<seq<byte>>, cid: u16)
    ensures Received(a + b, cid) == Received(a, cid) + Received(b, cid)
  {
    if b == [] {
      assert a + b == a;
    } else {
      ReceivedConcat(a, b[..|b| - 1], cid);
      assert (a + b)[..|a + b| - 1] == a + b[..|b| - 1];
    }
  }

  /** Traffic on other channels makes no difference to what one channel receives. */
  lemma {:induction false} OtherChannelsAreIgnored(pdus: seq<seq<byte>>, cid: u16)
    ensures Received(pdus, cid) == Received(OnChannel(pdus, cid), cid)
  {
    if pdus != [] {
      var front, pdu := pdus[..|pdus| - 1], pdus[|pdus| - 1];
      OtherChannelsAreIgnored(front, cid);
      ReceivedConcat(OnChannel(front, cid), [pdu], cid);
      assert [pdu][..|[pdu]| - 1] == Received([], cid);
    }
  }

  /** A delivery whose frame is the frame of its payload. */
  predicate WellFramed(d: Delivery) {
    d.payload != [] && (d.frame.Some? ==> d.frame == Frame(d.link, d.cid, d.payload[..1], d.payload[1..]))
  }

  lemma FrameHoldsPayload(d: Delivery)
    requires WellFramed(d) && d.frame.Some? && d.cid != L2cap.CID_SIGNALLING
    ensures L2cap.Route(InFrame(d)) == L2cap.Payload(d.cid, d.payload)
  {
    var prefix, data := d.payload[..1], d.payload[1..];
    assert prefix + data == d.payload;
    FrameIsStart(d.link, d.cid, prefix, data);
    assert d.frame.value[1 + L2cap.ACL_HDR..] == d.frame.value[1..][L2cap.ACL_HDR..];
    PduReadsBack(d.cid, d.payload);
  }

  lemma {:induction false} FramesHoldPayloads(ds: seq<Delivery>, cid: u16)
    requires cid != L2cap.CID_SIGNALLING
    requires forall d <- ds :: WellFramed(d) && d.frame.Some? && d.cid == cid
    ensures Received(InFrames(ds), cid) == Payloads(ds)
  {
    if ds != [] {
      var front, d := ds[..|ds| - 1], ds[|ds| - 1];
      FramesHoldPayloads(front, cid);
      FrameHoldsPayload(d);
      assert InFrames(ds)[..|ds| - 1] == InFrames(front);
      assert Payloads(ds) == Payloads(front) + [d.payload];
    }
  }

  /** Picking out one channel's deliveries invents none and keeps their order. */
  lemma {:induction false} WrittenIsPicked(ds: seq<Delivery>, link: u16, cid: u16)
    ensures forall d <- Written(ds, link, cid) :: d in ds && d.frame.Some? && d.link == link && d.cid == cid
  {
    if ds != [] {
      WrittenIsPicked(ds[..|ds| - 1], link, cid);
    }
  }

  lemma IncreasingAppend(picked: seq<Delivery>, d: Delivery)
    requires Relay.Increasing(picked) && forall e <- picked :: e.index < d.index
    ensures Relay.Increasing(picked + [d])
  {
  }

  lemma {:induction false} WrittenIncreases(ds: seq<Delivery>, link: u16, cid: u16)
    requires Relay.Increasing(ds)
    ensures Relay.Increasing(Written(ds, link, cid))
  {
    if ds != [] {
      var front, d := ds[..|ds| - 1], ds[|ds| - 1];
      WrittenIncreases(front, link, cid);
      WrittenIsPicked(front, link, cid);
      assert forall e <- front :: e.index < d.index;
      IncreasingAppend(Written(front, link, cid), d);
    }
  }

  lemma WrittenAreWellFramed(r: Relay.State, link: u16, cid: u16)
    requires Relay.RelayInv(r)
    ensures forall d <- Written(r.past.deliveries, link, cid) ::
              Relay.Faithful(r.past.spoken, d) && WellFramed(d) && d.frame.Some? && d.cid == cid
    ensures Relay.Increasing(Written(r.past.deliveries, link, cid))
  {
    WrittenIsPicked(r.past.deliveries, link, cid);
    WrittenIncreases(r.past.deliveries, link, cid);
    forall d | d in Written(r.past.deliveries, link, cid)
      ensures Relay.Faithful(r.past.spoken, d) && WellFramed(d)
    {
      assert d in r.past.deliveries;
    }
  }

  /** On an open link the air carried these PDUs, legally cut, among whatever the other links carried. */
  ghost predicate OnAir(far: L2cap.Links, air: seq<L2cap.LinkEvent>, h: u16, cuts: seq<L2cap.Cut>) {
    && h in far.open
    && (forall i :: 0 <= i < |cuts| ==> L2cap.LegalCut(cuts[i]))
    && L2cap.CarriesAll(L2cap.Project(air, h), h, cuts)
  }

  /** One channel of a link, before and after: it received these payloads. */
  ghost predicate Gained(before: L2cap.Links, after: L2cap.Links, h: u16, cid: u16, payloads: seq<seq<byte>>) {
    Received(L2cap.RoutedOn(after.routed, h), cid) == Received(L2cap.RoutedOn(before.routed, h), cid) + payloads
  }

  /** Whatever else the links carry, a channel receives the payloads of its own link's PDUs for it. */
  lemma ChannelReceives(far: L2cap.Links, air: seq<L2cap.LinkEvent>, h: u16, cid: u16, cuts: seq<L2cap.Cut>)
    requires OnAir(far, air, h, cuts)
    ensures Gained(far, L2cap.Run(far, air), h, cid, Received(OnChannel(L2cap.Pdus(cuts), cid), cid))
  {
    L2cap.LinksAreIndependent(far, air, h);
    L2cap.OneLink(far, L2cap.Project(air, h), h, cuts);
    ReceivedConcat(L2cap.RoutedOn(far.routed, h), L2cap.Pdus(cuts), cid);
    OtherChannelsAreIgnored(L2cap.Pdus(cuts), cid);
  }

  /** The far end's interrupt channel got exactly what was handed over there, in order and as the pad said it. */
  ghost predicate ReceivedInOrder(r: Relay.State, link: u16, cid: u16, before: L2cap.Links, after: L2cap.Links) {
    var written := Written(r.past.deliveries, link, cid);
    && Gained(before, after, link % 0x1000, cid, Payloads(written))
    && Relay.Increasing(written)
    && (forall i :: 0 <= i < |written| ==>
          && Relay.Faithful(r.past.spoken, written[i])
          && Relay.Says(written[i].payload, written[i].full, r.past.spoken[written[i].index].report))
  }

  lemma FarEndReceives(r: Relay.State, link: u16, cid: u16,
                       far: L2cap.Links, air: seq<L2cap.LinkEvent>, cuts: seq<L2cap.Cut>)
    requires Relay.RelayInv(r) && cid != L2cap.CID_SIGNALLING && OnAir(far, air, link % 0x1000, cuts)
    requires OnChannel(L2cap.Pdus(cuts), cid) == InFrames(Written(r.past.deliveries, link, cid))
    ensures ReceivedInOrder(r, link, cid, far, L2cap.Run(far, air))
  {
    forall i | 0 <= i < |Written(r.past.deliveries, link, cid)|
      ensures var d := Written(r.past.deliveries, link, cid)[i];
              Relay.Faithful(r.past.spoken, d) && Relay.Says(d.payload, d.full, r.past.spoken[d.index].report)
    {
      var d := Written(r.past.deliveries, link, cid)[i];
      WrittenAreWellFramed(r, link, cid);
      assert d in Written(r.past.deliveries, link, cid);
      Relay.PayloadSays(r.past.spoken[d.index].report, d.full);
    }
    WrittenAreWellFramed(r, link, cid);
    FramesHoldPayloads(Written(r.past.deliveries, link, cid), cid);
    ChannelReceives(far, air, link % 0x1000, cid, cuts);
  }

  /**
   * For every run of the relay, and every way of cutting the PDUs of a link and mixing its fragments with
   * those of other links: if the link carried, on the interrupt channel, the frames the relay wrote there
   * (and anything at all on other channels), the far end's interrupt channel receives exactly the payloads
   * handed over, in order. Each is a state report of the pad or its cut-down image, and each comes from a
   * later arrival than the one before it.
   */
  lemma ConsoleReceivesWhatWasHandedOver(flow: AclFlow.Flow, es: seq<Relay.Event>, link: u16, cid: u16,
                                       far: L2cap.Links, air: seq<L2cap.LinkEvent>, cuts: seq<L2cap.Cut>)
    requires AclFlow.FlowInv(flow) && Relay.LegalRun(Relay.Initial(flow), es)
    requires cid != L2cap.CID_SIGNALLING && OnAir(far, air, link % 0x1000, cuts)
    requires OnChannel(L2cap.Pdus(cuts), cid)
          == InFrames(Written(Relay.Run(Relay.Initial(flow), es).past.deliveries, link, cid))
    ensures ReceivedInOrder(Relay.Run(Relay.Initial(flow), es), link, cid, far, L2cap.Run(far, air))
  {
    Relay.RunKeepsInv(Relay.Initial(flow), es);
    FarEndReceives(Relay.Run(Relay.Initial(flow), es), link, cid, far, air, cuts);
  }
}
