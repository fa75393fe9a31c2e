/**
 * The input path to the console (src/bluetooth/HidRelay.cpp), with the credits it spends and the channel
 * resets that interrupt it (src/bluetooth/HciEvents.cpp).
 *
 * `State` is the console-facing handler's share of it, and with it the history the claims are about: every
 * report the pad sent, and every report handed to the link.
 */
module Relay {
  import opened Bytes
  import opened AclFlow
  import opened Framing
  import opened Reports
  import Traces

  /** A report of the pad, and whether the console's channel was open when it came. */
  datatype Spoken = Spoken(report: seq<byte>, open: bool)

  /**
   * A report handed to the console link: which of the pad's reports it was, as what bytes, how many the pad
   * had sent by then, between which resets, on which link and channel, and the frame the socket took if it
   * took one.
   */
  datatype Delivery = Delivery(index: nat, payload: seq<byte>, full: bool, seen: nat, epoch: nat,
                               link: u16, cid: u16, frame: Option<seq<byte>>)

  datatype Stats = Stats(sent: nat, backpressure: nat, flushed: nat, opaqueDropped: nat)

  /** History. `epoch` counts channel resets; the channel and its link have been the same since report `since`. */
  datatype Past = Past(spoken: seq<Spoken>, heldIndex: nat, deliveries: seq<Delivery>, epoch: nat, since: nat)

  datatype State = State(
    flow: Flow,
    held: seq<byte>,
    full: bool,
    dcid: u16,
    handle: u16,
    stats: Stats,
    past: Past)

  /** `wrote` is whether the socket took the frame, if one was built. */
  datatype Event =
    | PadReport(report: seq<byte>, wrote: bool, now: int)
    | Completions(body: seq<byte>, wrote: bool, now: int)
    | FeatureRequest(request: seq<byte>)
    | ChannelOpened(remoteCid: u16)
    | LinkUp(link: u16)
    | LinkDown(link: u16)
    | OtherFrame
    | PoolKnown(packets: u16)

  // ----------------------------------------------------------------- operations

  /** The bytes a send reads are there: a full report goes out from its first byte on, a cut-down one needs its body. */
  predicate Readable(report: seq<byte>, full: bool) { if full then report != [] else HasBody(report) }

  /** What the console's interrupt channel carries for a report: the report itself, or its cut-down image. */
  function Payload(report: seq<byte>, full: bool): seq<byte>
    requires Readable(report, full)
  {
    if full then report else [HIDP_DATA_INPUT] + CutDown(report)
  }

  /** Counting a report as sent and putting its frame on the link. */
  function Deliver(r: State, index: nat, report: seq<byte>, wrote: bool): State
    requires Readable(report, r.full)
  {
    var payload := Payload(report, r.full);
    var built := Frame(r.handle, r.dcid, payload[..1], payload[1..]);
    var frame := if wrote then built else None;
    var d := Delivery(index, payload, r.full, |r.past.spoken|, r.past.epoch, r.handle, r.dcid, frame);
    r.(stats := r.stats.(sent := r.stats.sent + 1),
       flow := if frame.Some? then Sent(r.flow, r.handle) else r.flow,
       past := r.past.(deliveries := r.past.deliveries + [d]))
  }

  /** The report is one that goes straight out. */
  predicate Sends(r: State, report: seq<byte>, now: int) {
    r.dcid != 0 && !Opaque(report) && Room(r.flow, now).1
  }

  /** A report remembered in the history; nothing the code keeps. */
  function Hear(r: State, report: seq<byte>): State {
    r.(past := r.past.(spoken := r.past.spoken + [Spoken(report, r.dcid != 0)]))
  }

  /** What the slot keeps of a report. */
  function Stored(report: seq<byte>): seq<byte> { if |report| <= REPORT_LEN then report else [] }

  /** relay_pad_input_to_console. */
  function Arrive(r: State, report: seq<byte>, wrote: bool, now: int): State
    requires Sends(r, report, now) ==> Readable(report, r.full)
  {
    var heard := Hear(r, report);
    if r.dcid == 0 then heard
    else if Opaque(report) then heard.(stats := r.stats.(opaqueDropped := r.stats.opaqueDropped + 1))
    else
      var (flow, ok) := Room(r.flow, now);
      if ok then Deliver(heard.(flow := flow, held := []), |r.past.spoken|, report, wrote)
      else heard.(flow := flow,
                  stats := r.stats.(backpressure := r.stats.backpressure + 1),
                  held := Stored(report),
                  past := heard.past.(heldIndex := |r.past.spoken|))
  }

  /** There is something to flush, room for it and a channel to put it on. */
  predicate Flushes(r: State, now: int) { r.held != [] && Room(r.flow, now).1 && r.dcid != 0 }

  /** flush_held_report. */
  function Flush(r: State, wrote: bool, now: int): State
    requires Flushes(r, now) ==> Readable(r.held, r.full)
  {
    if r.held == [] then r
    else
      var (flow, ok) := Room(r.flow, now);
      if !ok then r.(flow := flow)
      else if r.dcid == 0 then r.(flow := flow, held := [])
      else
        Deliver(r.(flow := flow, held := [], stats := r.stats.(flushed := r.stats.flushed + 1)),
                r.past.heldIndex, r.held, wrote)
  }

  /** The channel is another one from here on. */
  function Rechannelled(r: State, dcid: u16): State {
    r.(dcid := dcid, past := r.past.(since := |r.past.spoken|))
  }

  /** reset_channels. */
  function ResetChannels(r: State): State {
    var t := Rechannelled(r, 0);
    t.(full := false, past := t.past.(epoch := r.past.epoch + 1))
  }

  function Replenished(r: State, body: seq<byte>, now: int): State
    requires body != []
  {
    r.(flow := CompleteAll(r.flow, EntriesFrom(body, 0), now))
  }

  /** The source's own demand: it reads the body of a report it cuts down, unchecked. */
  predicate LegalEvent(r: State, e: Event) {
    match e
    case PadReport(report, _, now) => Sends(r, report, now) ==> Readable(report, r.full)
    case Completions(body, _, now) =>
      body != [] && Flushes(Replenished(r, body, now), now) ==> Readable(r.held, r.full)
    case _ => true
  }

  function Step(r: State, e: Event): State
    requires LegalEvent(r, e)
  {
    match e
    case PadReport(report, wrote, now) => Arrive(r, report, wrote, now)
    case Completions(body, wrote, now) => if body == [] then r else Flush(Replenished(r, body, now), wrote, now)
    case FeatureRequest(q) =>
      if |q| > 1 && (q[1] == REPORT_CALIBRATION || q[1] == REPORT_FIRMWARE) then r.(full := true) else r
    case ChannelOpened(cid) => Rechannelled(r, cid)
    case LinkUp(h) =>
      (if r.handle != 0 && r.handle != h then ResetChannels(r) else r).(handle := h)
    case LinkDown(h) =>
      var r1 := r.(flow := Disconnected(r.flow, h));
      if h != r.handle then r1 else ResetChannels(r1.(held := [], handle := 0))
    case OtherFrame => r.(flow := Sent(r.flow, r.handle))
    case PoolKnown(n) => r.(flow := r.flow.(maxPackets := n))
  }

  predicate LegalRun(r: State, es: seq<Event>)
    decreases es
  {
    es == [] || (LegalEvent(r, es[0]) && LegalRun(Step(r, es[0]), es[1..]))
  }

  function Run(r: State, es: seq<Event>): State
    requires LegalRun(r, es)
    decreases es
  {
    if es == [] then r else Run(Step(r, es[0]), es[1..])
  }

  function Initial(flow: Flow): State {
    State(flow, [], false, 0, 0, Stats(0, 0, 0, 0), Past([], 0, [], 0, 0))
  }

  // ------------------------------------------------------ what every step keeps

  /** How many reports came while the channel was open. */
  function Arrivals(spoken: seq<Spoken>): nat {
    if spoken == [] then 0
    else Arrivals(spoken[..|spoken| - 1]) + if spoken[|spoken| - 1].open then 1 else 0
  }

  lemma ArrivalsAppend(spoken: seq<Spoken>, s: Spoken)
    ensures Arrivals(spoken + [s]) == Arrivals(spoken) + if s.open then 1 else 0
  {
    assert (spoken + [s])[..|spoken|] == spoken;
  }

  /** Every arrival on an open channel is accounted for once. */
  ghost predicate Conserved(r: State) {
    && |r.past.deliveries| == r.stats.sent
    && Arrivals(r.past.spoken) == r.stats.opaqueDropped + r.stats.backpressure + (r.stats.sent - r.stats.flushed)
    && r.stats.flushed + (if r.held == [] then 0 else 1) <= r.stats.backpressure
  }

  /** A state report that came while the channel was open. */
  predicate Arrival(s: Spoken) { s.open && !Opaque(s.report) }

  /** By the time the pad had sent n reports, no state report had come on an open channel after report k. */
  ghost predicate NoArrivalAfter(spoken: seq<Spoken>, k: nat, n: nat)
    requires n <= |spoken|
  {
    forall i :: k < i < n ==> !Arrival(spoken[i])
  }

  /** The delivery is the image of a state report, which was the newest one to come on an open channel. */
  ghost predicate Faithful(spoken: seq<Spoken>, d: Delivery) {
    && d.index < d.seen <= |spoken|
    && Arrival(spoken[d.index])
    && Readable(spoken[d.index].report, d.full)
    && d.payload == Payload(spoken[d.index].report, d.full)
    && (d.frame.Some? ==> d.frame == Frame(d.link, d.cid, d.payload[..1], d.payload[1..]))
    && NoArrivalAfter(spoken, d.index, d.seen)
  }

  ghost predicate AllFaithful(spoken: seq<Spoken>, ds: seq<Delivery>) {
    forall i :: 0 <= i < |ds| ==> Faithful(spoken, ds[i])
  }

  ghost predicate AllBefore(ds: seq<Delivery>, index: nat) {
    forall i :: 0 <= i < |ds| ==> ds[i].index < index
  }

  ghost predicate Increasing(ds: seq<Delivery>) {
    forall i, j :: 0 <= i < j < |ds| ==> ds[i].index < ds[j].index
  }

  /** What is held is the newest state report to come on an open channel, and it has not been sent. */
  ghost predicate HeldIsNewest(r: State) {
    r.held != [] ==>
      && r.past.heldIndex < |r.past.spoken|
      && r.held == r.past.spoken[r.past.heldIndex].report
      && Arrival(r.past.spoken[r.past.heldIndex])
      && NoArrivalAfter(r.past.spoken, r.past.heldIndex, |r.past.spoken|)
      && AllBefore(r.past.deliveries, r.past.heldIndex)
  }

  /** Report k is the last one handed over, or the one held. */
  ghost predicate SentOrHeld(r: State, k: nat) {
    || (r.past.deliveries != [] && r.past.deliveries[|r.past.deliveries| - 1].index == k)
    || (r.held != [] && r.past.heldIndex == k)
  }

  predicate FitsTheSlot(report: seq<byte>) { 0 < |report| <= REPORT_LEN }

  /** Report k is the newest arrival, came since the channel and its link last changed, and fits the slot. */
  ghost predicate IsNewest(p: Past, k: nat) {
    && p.since <= k < |p.spoken|
    && Arrival(p.spoken[k]) && FitsTheSlot(p.spoken[k].report)
    && NoArrivalAfter(p.spoken, k, |p.spoken|)
  }

  ghost predicate NoneOpenSince(p: Past) { forall k :: p.since <= k < |p.spoken| ==> !p.spoken[k].open }

  ghost predicate NewestIsKept(r: State) {
    && (r.dcid == 0 ==> NoneOpenSince(r.past))
    && forall k: nat :: IsNewest(r.past, k) ==> SentOrHeld(r, k)
  }

  /** Between two resets the console never goes back from full reports to cut-down ones. */
  ghost predicate NeverBackToCutDown(ds: seq<Delivery>) {
    forall i, j :: 0 <= i < j < |ds| ==>
      && ds[i].epoch <= ds[j].epoch
      && (ds[i].epoch == ds[j].epoch && ds[i].full ==> ds[j].full)
  }

  ghost predicate FormatSoFar(ds: seq<Delivery>, epoch: nat, full: bool) {
    forall i :: 0 <= i < |ds| ==> ds[i].epoch <= epoch && (ds[i].epoch == epoch && ds[i].full ==> full)
  }

  ghost predicate HistoryInv(p: Past, full: bool) {
    && AllFaithful(p.spoken, p.deliveries)
    && AllBefore(p.deliveries, |p.spoken|)
    && Increasing(p.deliveries)
    && NeverBackToCutDown(p.deliveries)
    && FormatSoFar(p.deliveries, p.epoch, full)
  }

  ghost predicate RelayInv(r: State) {
    FlowInv(r.flow) && Conserved(r) && HistoryInv(r.past, r.full) && HeldIsNewest(r) && NewestIsKept(r)
  }

  /** More reports change nothing about deliveries already made. */
  lemma AllFaithfulExtends(spoken: seq<Spoken>, s: Spoken, ds: seq<Delivery>)
    requires AllFaithful(spoken, ds)
    ensures AllFaithful(spoken + [s], ds)
  {
    var more := spoken + [s];
    forall i | 0 <= i < |ds|
      ensures Faithful(more, ds[i])
    {
      var d := ds[i];
      assert Faithful(spoken, d);
      assert more[d.index] == spoken[d.index];
      assert forall k :: d.index < k < d.seen ==> more[k] == spoken[k];
    }
  }

  lemma AllFaithfulAppend(spoken: seq<Spoken>, ds: seq<Delivery>, d: Delivery)
    requires AllFaithful(spoken, ds) && Faithful(spoken, d)
    ensures AllFaithful(spoken, ds + [d])
  {
    forall i | 0 <= i < |ds + [d]|
      ensures Faithful(spoken, (ds + [d])[i])
    {
      if i < |ds| {
        assert (ds + [d])[i] == ds[i];
      }
    }
  }

  lemma FormatAppend(ds: seq<Delivery>, d: Delivery)
    requires NeverBackToCutDown(ds) && FormatSoFar(ds, d.epoch, d.full)
    ensures NeverBackToCutDown(ds + [d]) && FormatSoFar(ds + [d], d.epoch, d.full)
  {
  }

  lemma HistoryGrows(p: Past, d: Delivery)
    requires HistoryInv(p, d.full) && Faithful(p.spoken, d) && AllBefore(p.deliveries, d.index) && d.epoch == p.epoch
    ensures HistoryInv(p.(deliveries := p.deliveries + [d]), d.full)
  {
    AllFaithfulAppend(p.spoken, p.deliveries, d);
    FormatAppend(p.deliveries, d);
    assert d.index < |p.spoken|;
    assert Increasing(p.deliveries + [d]);
    assert AllBefore(p.deliveries + [d], |p.spoken|);
  }

  /** Sending the newest arrival keeps history and freshness. */
  lemma DeliverKeepsInv(r: State, index: nat, report: seq<byte>, wrote: bool)
    requires FlowInv(r.flow) && HistoryInv(r.past, r.full) && r.held == [] && r.dcid != 0 && Readable(report, r.full)
    requires index < |r.past.spoken| && report == r.past.spoken[index].report && Arrival(r.past.spoken[index])
    requires NoArrivalAfter(r.past.spoken, index, |r.past.spoken|) && AllBefore(r.past.deliveries, index)
    requires Conserved(Deliver(r, index, report, wrote))
    ensures RelayInv(Deliver(r, index, report, wrote))
  {
    SentKeepsTotal(r.flow, r.handle);
    var t := Deliver(r, index, report, wrote);
    var d := t.past.deliveries[|r.past.deliveries|];
    HistoryGrows(r.past, d);
    assert t.past == r.past.(deliveries := r.past.deliveries + [d]);
    forall k: nat | IsNewest(t.past, k)
      ensures SentOrHeld(t, k)
    {
      assert k == index;
    }
  }

  lemma RoomKeepsTotal(f: Flow, now: int)
    requires FlowInv(f)
    ensures FlowInv(Room(f, now).0)
  {
    assert Sum(map[]) == 0;
  }

  lemma NoArrivalExtends(spoken: seq<Spoken>, s: Spoken, k: nat)
    requires k < |spoken|
    ensures NoArrivalAfter(spoken + [s], k, |spoken| + 1) <==> NoArrivalAfter(spoken, k, |spoken|) && !Arrival(s)
  {
    var more := spoken + [s];
    assert more[|spoken|] == s;
    if NoArrivalAfter(more, k, |spoken| + 1) {
      forall i | k < i < |spoken|
        ensures !Arrival(spoken[i])
      {
        assert more[i] == spoken[i];
      }
    }
  }

  /** A report that is not an arrival - opaque, or on a closed channel - leaves what is held and sent the newest. */
  lemma HearingKeepsNewest(r: State, report: seq<byte>)
    requires HeldIsNewest(r) && NewestIsKept(r) && !Arrival(Spoken(report, r.dcid != 0))
    ensures HeldIsNewest(Hear(r, report)) && NewestIsKept(Hear(r, report))
  {
    var s, t := Spoken(report, r.dcid != 0), Hear(r, report);
    if r.held != [] {
      NoArrivalExtends(r.past.spoken, s, r.past.heldIndex);
    }
    forall k: nat | IsNewest(t.past, k)
      ensures SentOrHeld(t, k)
    {
      assert k < |r.past.spoken| && t.past.spoken[k] == r.past.spoken[k];
      NoArrivalExtends(r.past.spoken, s, k);
      assert IsNewest(r.past, k);
    }
  }

  lemma HearingKeepsHistory(r: State, report: seq<byte>)
    requires HistoryInv(r.past, r.full)
    ensures HistoryInv(Hear(r, report).past, r.full)
    ensures AllBefore(Hear(r, report).past.deliveries, |r.past.spoken|)
  {
    AllFaithfulExtends(r.past.spoken, Spoken(report, r.dcid != 0), r.past.deliveries);
  }

  /** No room: the report takes the slot, or empties it when it does not fit. */
  lemma HoldingKeepsInv(r: State, report: seq<byte>, wrote: bool, now: int)
    requires RelayInv(r) && r.dcid != 0 && !Opaque(report) && !Room(r.flow, now).1
    ensures RelayInv(Arrive(r, report, wrote, now))
  {
    var t := Arrive(r, report, wrote, now);
    HearingKeepsHistory(r, report);
    ArrivalsAppend(r.past.spoken, Spoken(report, true));
    RoomKeepsTotal(r.flow, now);
    assert Arrival(t.past.spoken[|r.past.spoken|]);
    forall k: nat | IsNewest(t.past, k)
      ensures SentOrHeld(t, k)
    {
      assert k == |r.past.spoken|;
    }
  }

  lemma SendingKeepsInv(r: State, report: seq<byte>, wrote: bool, now: int)
    requires RelayInv(r) && Sends(r, report, now) && Readable(report, r.full)
    ensures RelayInv(Arrive(r, report, wrote, now))
  {
    ArrivalsAppend(r.past.spoken, Spoken(report, true));
    HearingKeepsHistory(r, report);
    RoomKeepsTotal(r.flow, now);
    DeliverKeepsInv(Hear(r, report).(flow := Room(r.flow, now).0, held := []), |r.past.spoken|, report, wrote);
  }

  lemma ArriveKeepsInv(r: State, report: seq<byte>, wrote: bool, now: int)
    requires RelayInv(r) && (Sends(r, report, now) ==> Readable(report, r.full))
    ensures RelayInv(Arrive(r, report, wrote, now))
  {
    if r.dcid == 0 || Opaque(report) {
      ArrivalsAppend(r.past.spoken, Spoken(report, r.dcid != 0));
      HearingKeepsHistory(r, report);
      HearingKeepsNewest(r, report);
    } else if Room(r.flow, now).1 {
      SendingKeepsInv(r, report, wrote, now);
    } else {
      HoldingKeepsInv(r, report, wrote, now);
    }
  }

  lemma FlushKeepsInv(r: State, wrote: bool, now: int)
    requires RelayInv(r) && (Flushes(r, now) ==> Readable(r.held, r.full))
    ensures RelayInv(Flush(r, wrote, now))
  {
    RoomKeepsTotal(r.flow, now);
    if Flushes(r, now) {
      DeliverKeepsInv(r.(flow := Room(r.flow, now).0, held := [], stats := r.stats.(flushed := r.stats.flushed + 1)),
                      r.past.heldIndex, r.held, wrote);
    } else if r.held != [] && Room(r.flow, now).1 {
      assert NewestIsKept(Flush(r, wrote, now));
    }
  }

  lemma RechannelledKeepsInv(r: State, dcid: u16)
    requires FlowInv(r.flow) && Conserved(r) && HistoryInv(r.past, r.full) && HeldIsNewest(r)
    ensures RelayInv(Rechannelled(r, dcid))
  {
  }

  lemma ResetKeepsInv(r: State)
    requires FlowInv(r.flow) && Conserved(r) && HistoryInv(r.past, r.full) && HeldIsNewest(r)
    ensures RelayInv(ResetChannels(r))
  {
    RechannelledKeepsInv(r, 0);
  }

  lemma LinkUpKeepsInv(r: State, h: u16)
    requires RelayInv(r)
    ensures RelayInv(Step(r, LinkUp(h)))
  {
    if r.handle != 0 && r.handle != h {
      ResetKeepsInv(r);
      HandleKeepsInv(ResetChannels(r), h);
    } else {
      HandleKeepsInv(r, h);
    }
  }

  lemma HandleKeepsInv(r: State, h: u16)
    requires RelayInv(r)
    ensures RelayInv(r.(handle := h))
  {
  }

  lemma FullReportsKeepInv(r: State)
    requires RelayInv(r)
    ensures RelayInv(r.(full := true))
  {
  }

  /** Credits change nothing else. */
  lemma FlowKeepsInv(r: State, flow: Flow)
    requires RelayInv(r) && FlowInv(flow)
    ensures RelayInv(r.(flow := flow))
  {
  }

  lemma CompletionsKeepInv(r: State, e: Event)
    requires RelayInv(r) && e.Completions? && LegalEvent(r, e)
    ensures RelayInv(Step(r, e))
  {
    if e.body != [] {
      CompleteAllExact(r.flow, EntriesFrom(e.body, 0), e.now);
      FlowKeepsInv(r, CompleteAll(r.flow, EntriesFrom(e.body, 0), e.now));
      FlushKeepsInv(Replenished(r, e.body, e.now), e.wrote, e.now);
    }
  }

  lemma LinkDownKeepsInv(r: State, h: u16)
    requires RelayInv(r)
    ensures RelayInv(Step(r, LinkDown(h)))
  {
    DisconnectedKeepsTotal(r.flow, h);
    var r1 := r.(flow := Disconnected(r.flow, h));
    FlowKeepsInv(r, r1.flow);
    ResetKeepsInv(r1.(held := [], handle := 0));
  }

  lemma StepKeepsInv(r: State, e: Event)
    requires LegalEvent(r, e) && RelayInv(r)
    ensures RelayInv(Step(r, e))
  {
    match e
    case PadReport(report, wrote, now) => ArriveKeepsInv(r, report, wrote, now);
    case Completions(_, _, _) => CompletionsKeepInv(r, e);
    case LinkUp(h) => LinkUpKeepsInv(r, h);
    case LinkDown(h) => LinkDownKeepsInv(r, h);
    case OtherFrame =>
      SentKeepsTotal(r.flow, r.handle);
      FlowKeepsInv(r, Sent(r.flow, r.handle));
    case ChannelOpened(cid) => RechannelledKeepsInv(r, cid);
    case FeatureRequest(_) => FullReportsKeepInv(r);
    case PoolKnown(n) => FlowKeepsInv(r, r.flow.(maxPackets := n));
  }

  lemma {:induction false} RunKeepsInv(r: State, es: seq<Event>)
    requires RelayInv(r) && LegalRun(r, es)
    ensures RelayInv(Run(r, es))
    decreases es
  {
    if es != [] {
      StepKeepsInv(r, es[0]);
      RunKeepsInv(Step(r, es[0]), es[1..]);
    }
  }

  // --------------------------------------------------------- claims over any run

  /**
   * What a payload says, byte by byte: the pad's report itself, or an input transaction with the basic report
   * whose controls are the pad's, the counter cut to its six bits.
   */
  ghost predicate Says(payload: seq<byte>, full: bool, report: seq<byte>) {
    if full then payload == report
    else
      && |payload| == 11 && payload[0] == 0xa1 && payload[1] == 0x01
      && HasBody(report)
      && ReadBasic(payload[1..]) == ReadFull(report).(counter := ReadFull(report).counter % 64)
  }

  lemma PayloadSays(report: seq<byte>, full: bool)
    requires Readable(report, full)
    ensures Says(Payload(report, full), full, report)
  {
    if !full {
      CutDownKeepsControls(report);
      assert Payload(report, full)[1..] == CutDown(report);
    }
  }

  /** In every run what is handed over says what the pad said, in the format it claims. */
  lemma ConsoleIsToldWhatThePadSaid(flow: Flow, es: seq<Event>, i: nat)
    requires FlowInv(flow) && LegalRun(Initial(flow), es) && i < |Run(Initial(flow), es).past.deliveries|
    ensures var p := Run(Initial(flow), es).past;
            var d := p.deliveries[i];
            d.index < |p.spoken| && Says(d.payload, d.full, p.spoken[d.index].report)
  {
    RunKeepsInv(Initial(flow), es);
    var p := Run(Initial(flow), es).past;
    assert Faithful(p.spoken, p.deliveries[i]);
    PayloadSays(p.spoken[p.deliveries[i].index].report, p.deliveries[i].full);
  }

  /**
   * Order and freshness: what the console is handed is a strictly increasing subsequence of the state
   * reports, so none is sent twice, and at the moment each went out no newer one had come on an open channel.
   */
  lemma ConsoleSeesFreshReportsInOrder(flow: Flow, es: seq<Event>)
    requires FlowInv(flow) && LegalRun(Initial(flow), es)
    ensures var p := Run(Initial(flow), es).past;
            && (forall i, j :: 0 <= i < j < |p.deliveries| ==> p.deliveries[i].index < p.deliveries[j].index)
            && (forall i :: 0 <= i < |p.deliveries| ==> Faithful(p.spoken, p.deliveries[i]))
  {
    RunKeepsInv(Initial(flow), es);
  }

  /** The pad had sent no state report after this one when it was delivered, on an open channel or a closed one. */
  ghost predicate NewestOfAll(spoken: seq<Spoken>, d: Delivery)
    requires d.seen <= |spoken|
  {
    forall i :: d.index < i < d.seen ==> Opaque(spoken[i].report)
  }

  /** A state report came, between this one and its delivery, while the channel was closed. */
  ghost predicate MissedOnAClosedChannel(spoken: seq<Spoken>, d: Delivery)
    requires d.seen <= |spoken|
  {
    exists i :: d.index < i < d.seen && !spoken[i].open && !Opaque(spoken[i].report)
  }

  /** A delivery is the newest of all the pad's state reports exactly when none came on a closed channel meanwhile. */
  lemma NewestUnlessMissedOnAClosedChannel(flow: Flow, es: seq<Event>, i: nat)
    requires FlowInv(flow) && LegalRun(Initial(flow), es) && i < |Run(Initial(flow), es).past.deliveries|
    ensures var p := Run(Initial(flow), es).past;
            && p.deliveries[i].seen <= |p.spoken|
            && (NewestOfAll(p.spoken, p.deliveries[i]) <==> !MissedOnAClosedChannel(p.spoken, p.deliveries[i]))
  {
    RunKeepsInv(Initial(flow), es);
    var p := Run(Initial(flow), es).past;
    assert Faithful(p.spoken, p.deliveries[i]);
  }

  /** The second link comes up, the pad speaks, the channel opens and a credit comes back. */
  function NewLink(link: u16, newer: seq<byte>, cid: u16, body: seq<byte>, now: int): seq<Event> {
    [LinkUp(link), PadReport(newer, true, now), ChannelOpened(cid), Completions(body, true, now)]
  }

  lemma {:induction false} RunAppend(r: State, a: seq<Event>, b: seq<Event>)
    requires LegalRun(r, a) && LegalRun(Run(r, a), b)
    ensures LegalRun(r, a + b) && Run(r, a + b) == Run(Run(r, a), b)
    decreases a
  {
    if a == [] {
      assert a + b == b;
    } else {
      RunAppend(Step(r, a[0]), a[1..], b);
      assert (a + b)[1..] == a[1..] + b;
    }
  }

  lemma RunOne(r: State, e: Event, es: seq<Event>)
    requires LegalEvent(r, e) && LegalRun(Step(r, e), es)
    ensures LegalRun(r, [e] + es) && Run(r, [e] + es) == Run(Step(r, e), es)
  {
    assert ([e] + es)[1..] == es;
  }

  /**
   * A hold survives the reset that a second link brings, so whatever is held can go out after the pad has
   * said something newer to the closed channel.
   */
  lemma HoldOutlivesItsChannel(r: State, link: u16, newer: seq<byte>, cid: u16, body: seq<byte>, now: int)
    requires RelayInv(r) && r.held != [] && HasBody(r.held) && r.handle != 0 && link != r.handle && cid != 0
    requires !Opaque(newer) && body != [] && Room(CompleteAll(r.flow, EntriesFrom(body, 0), now), now).1
    ensures LegalRun(r, NewLink(link, newer, cid, body, now))
    ensures var p := Run(r, NewLink(link, newer, cid, body, now)).past;
            && |p.deliveries| == |r.past.deliveries| + 1
            && var d := p.deliveries[|r.past.deliveries|];
               && d.index == r.past.heldIndex && d.payload == Payload(r.held, false) && d.seen == |p.spoken|
               && MissedOnAClosedChannel(p.spoken, d) && !NewestOfAll(p.spoken, d)
  {
    var up, speak := LinkUp(link), PadReport(newer, true, now);
    var open, credit := ChannelOpened(cid), Completions(body, true, now);
    var r1 := Step(r, up);
    var r2 := Step(r1, speak);
    var r3 := Step(r2, open);
    var r4 := Step(r3, credit);
    assert Run(r4, []) == r4;
    RunOne(r3, credit, []);
    RunOne(r2, open, [credit]);
    RunOne(r1, speak, [open, credit]);
    RunOne(r, up, [speak, open, credit]);
    assert [up] + [speak, open, credit] == NewLink(link, newer, cid, body, now);
    assert [speak] + [open, credit] == [speak, open, credit] && [open] + [credit] == [open, credit];
    assert [credit] + [] == [credit];
    var missed := |r.past.spoken|;
    assert r4.past.spoken == r.past.spoken + [Spoken(newer, false)];
    assert r4.past.spoken[missed] == Spoken(newer, false);
  }

  const UNMETERED := Flow(0, 2, 3000, map[], 0, 0)

  const OPENING: seq<Event> := [Event.PoolKnown(2), LinkUp(1), ChannelOpened(0x41)]

  /** A pool of two has one buffer to give: the first report takes it, the second is held. */
  function TwoReports(first: seq<byte>, second: seq<byte>): seq<Event> {
    OPENING + ([PadReport(first, true, 0)] + [PadReport(second, true, 0)])
  }

  lemma OpeningLeaves()
    ensures LegalRun(Initial(UNMETERED), OPENING)
    ensures Run(Initial(UNMETERED), OPENING)
         == Initial(UNMETERED).(flow := UNMETERED.(maxPackets := 2), handle := 1, dcid := 0x41)
  {
    var r0 := Initial(UNMETERED);
    var a, b, c := Event.PoolKnown(2), LinkUp(1), ChannelOpened(0x41);
    assert OPENING[1..] == [b, c] && [b, c][1..] == [c] && [c][1..] == [];
    var r3 := Step(Step(Step(r0, a), b), c);
    assert Run(r3, []) == r3;
    assert Run(Step(Step(r0, a), b), [c]) == r3;
  }

  /** A cut-down report always fits its frame, so a socket that takes it costs a credit. */
  lemma CutDownCostsACredit(r: State, report: seq<byte>, now: int)
    requires !r.full && HasBody(report) && Sends(r, report, now)
    ensures var t := Arrive(r, report, true, now);
            t.flow == Sent(Room(r.flow, now).0, r.handle) && t.dcid == r.dcid && t.handle == r.handle && !t.full
  {
    assert |Payload(report, false)| == 11;
  }

  lemma SecondReportIsHeld(first: seq<byte>, second: seq<byte>)
    requires CarriesControllerState(first) && CarriesControllerState(second)
    ensures LegalRun(Initial(UNMETERED), TwoReports(first, second))
    ensures var r := Run(Initial(UNMETERED), TwoReports(first, second));
            && RelayInv(r) && r.held == second && r.handle == 1
            && r.flow == Sent(UNMETERED.(maxPackets := 2), 1)
  {
    OpeningLeaves();
    var r0 := Initial(UNMETERED);
    var r3 := Run(r0, OPENING);
    CutDownCostsACredit(r3, first, 0);
    var r4 := Step(r3, PadReport(first, true, 0));
    var r5 := Step(r4, PadReport(second, true, 0));
    assert Run(r5, []) == r5 && [PadReport(second, true, 0)] + [] == [PadReport(second, true, 0)];
    RunOne(r4, PadReport(second, true, 0), []);
    RunOne(r3, PadReport(first, true, 0), [PadReport(second, true, 0)]);
    RunAppend(r0, OPENING, [PadReport(first, true, 0)] + [PadReport(second, true, 0)]);
    assert Sum(map[]) == 0;
    RunKeepsInv(r0, TwoReports(first, second));
  }

  /** From the start: two reports, a second link, a third report to the closed channel - and the second goes out. */
  lemma StaleReportGoesOut(first: seq<byte>, second: seq<byte>, third: seq<byte>)
    requires CarriesControllerState(first) && CarriesControllerState(second) && CarriesControllerState(third)
    ensures var es := TwoReports(first, second) + NewLink(2, third, 0x42, [1, 1, 0, 1, 0], 1);
            && LegalRun(Initial(UNMETERED), es)
            && var p := Run(Initial(UNMETERED), es).past;
               && p.deliveries != []
               && var d := p.deliveries[|p.deliveries| - 1];
                  && d.payload == Payload(second, false) && d.seen == |p.spoken|
                  && MissedOnAClosedChannel(p.spoken, d) && !NewestOfAll(p.spoken, d)
  {
    SecondReportIsHeld(first, second);
    var r := Run(Initial(UNMETERED), TwoReports(first, second));
    var entries := EntriesFrom([1, 1, 0, 1, 0], 0);
    assert entries == [Entry(1, 1)];
    assert entries[1..] == [];
    assert CompleteAll(r.flow, entries, 1) == Completed(r.flow, 1, 1, 1);
    HoldOutlivesItsChannel(r, 2, third, 0x42, [1, 1, 0, 1, 0], 1);
    RunAppend(Initial(UNMETERED), TwoReports(first, second), NewLink(2, third, 0x42, [1, 1, 0, 1, 0], 1));
  }

  /** Wire meaning: the pad's bytes or their cut-down image, and no way back to cut-down before the next reset. */
  lemma ConsoleFormatOnlyMovesForward(flow: Flow, es: seq<Event>, i: nat, j: nat)
    requires FlowInv(flow) && LegalRun(Initial(flow), es)
    requires i < j < |Run(Initial(flow), es).past.deliveries|
    ensures var ds := Run(Initial(flow), es).past.deliveries;
            && ds[i].epoch <= ds[j].epoch
            && (ds[i].epoch == ds[j].epoch && ds[i].full ==> ds[j].full)
  {
    RunKeepsInv(Initial(flow), es);
  }

  /** Conservation: arrivals = opaque + backpressure + (sent - flushed), and a flush spends a report held back. */
  lemma ArrivalsAreConserved(flow: Flow, es: seq<Event>)
    requires FlowInv(flow) && LegalRun(Initial(flow), es)
    ensures var r := Run(Initial(flow), es);
            && Arrivals(r.past.spoken)
               == r.stats.opaqueDropped + r.stats.backpressure + (r.stats.sent - r.stats.flushed)
            && r.stats.sent == |r.past.deliveries|
            && r.stats.flushed <= r.stats.backpressure
  {
    RunKeepsInv(Initial(flow), es);
  }

  /**
   * Between any two events of any run: of the state reports that came since the channel and its link last
   * changed, the newest is the last one handed over or the one held, if it fits the slot.
   */
  lemma NewestIsAlwaysSentOrHeld(flow: Flow, es: seq<Event>, k: nat)
    requires FlowInv(flow) && LegalRun(Initial(flow), es)
    requires IsNewest(Run(Initial(flow), es).past, k)
    ensures SentOrHeld(Run(Initial(flow), es), k)
  {
    RunKeepsInv(Initial(flow), es);
  }

  /**
   * After a state report arrives on an open channel it is either sent or held - except when there is no room
   * and it does not fit the slot. Then it is lost, and whatever was held before it is lost too.
   */
  lemma NewestIsSentOrHeld(r: State, report: seq<byte>, wrote: bool, now: int)
    requires RelayInv(r) && r.dcid != 0 && !Opaque(report) && (Room(r.flow, now).1 ==> Readable(report, r.full))
    ensures var t := Arrive(r, report, wrote, now);
            && (SentOrHeld(t, |r.past.spoken|) <==> Room(r.flow, now).1 || FitsTheSlot(report))
            && (!Room(r.flow, now).1 && !FitsTheSlot(report) ==> t.held == [])
  {
    var t := Arrive(r, report, wrote, now);
    if Room(r.flow, now).1 {
      assert t.past.deliveries[|t.past.deliveries| - 1].index == |r.past.spoken|;
    } else {
      assert t.past.deliveries == r.past.deliveries;
    }
  }

  /**
   * An arrival goes out at once exactly when the channel is open, the frame is not one of the pad's opaque ones -
   * 79 bytes, the flag bit clear - and there is room: an unknown pool, a stall, or a total below both the depth
   * and the pool less one.
   */
  lemma ArrivalGoesOutExactlyWhenThereIsRoom(r: State, report: seq<byte>, wrote: bool, now: int)
    requires Sends(r, report, now) ==> Readable(report, r.full)
    ensures var t := Arrive(r, report, wrote, now);
            var f := r.flow;
            var room := f.maxPackets == 0 || (f.total > 0 && now - f.lastCompletion > f.writeOffAfter)
                        || (f.total < f.depth && f.total < f.maxPackets - 1);
            var state := !(|report| == 79 && report[2] % 2 == 0);
            && |t.past.deliveries| == |r.past.deliveries| + (if r.dcid != 0 && state && room then 1 else 0)
            && (t.stats.backpressure == r.stats.backpressure + if r.dcid != 0 && state && !room then 1 else 0)
            && (r.dcid != 0 && state && room ==> t.held == [])
  {
    RoomIsExactly(r.flow, now);
  }

  /** After a completion event that is not empty either nothing is held or there is no room. */
  lemma CompletionLeavesNoIdleCredit(r: State, body: seq<byte>, wrote: bool, now: int)
    requires RelayInv(r) && body != [] && LegalEvent(r, Completions(body, wrote, now))
    ensures var t := Step(r, Completions(body, wrote, now));
            t.held == [] || !Room(t.flow, now).1
  {
  }

  // ------------------------------------------------------ the fields, off the run

  function TotalStep(r: State, e: Event): State { if LegalEvent(r, e) then Step(r, e) else r }

  lemma {:induction false} RunIsTrace(r: State, es: seq<Event>)
    requires LegalRun(r, es)
    ensures Run(r, es) == Traces.Run(TotalStep, r, es)
    decreases es
  {
    if es != [] {
      RunIsTrace(Step(r, es[0]), es[1..]);
      Traces.RunFirst(TotalStep, r, es);
    }
  }

  /** A second link takes over, or the one that is relayed on is lost. */
  predicate Resets(r: State, e: Event) {
    || (e.LinkUp? && r.handle != 0 && e.link != r.handle)
    || (e.LinkDown? && e.link == r.handle)
  }

  /** The console asks for calibration or firmware. */
  predicate Asks(r: State, e: Event) {
    e.FeatureRequest? && |e.request| > 1 && (e.request[1] == 0x05 || e.request[1] == 0x20)
  }

  function OpensAs(cid: u16): (State, Event) -> bool { (r: State, e: Event) => e == ChannelOpened(cid) }

  predicate ChangesChannel(r: State, e: Event) { e.ChannelOpened? || Resets(r, e) }

  function ComesUp(link: u16): (State, Event) -> bool { (r: State, e: Event) => e == LinkUp(link) }

  predicate ChangesLink(r: State, e: Event) { e.LinkUp? || (e.LinkDown? && e.link == r.handle) }

  lemma FieldsStep(r: State, e: Event)
    ensures var t := TotalStep(r, e);
            && t.full == (if Resets(r, e) then false else r.full || Asks(r, e))
            && t.dcid == (if e.ChannelOpened? then e.remoteCid else if Resets(r, e) then 0 else r.dcid)
            && t.handle == (if e.LinkUp? then e.link else if e.LinkDown? && e.link == r.handle then 0 else r.handle)
  {
  }

  lemma {:induction false} FieldsTrace(flow: Flow, es: seq<Event>, cid: u16, link: u16)
    requires cid != 0 && link != 0
    ensures var r := Traces.Run(TotalStep, Initial(flow), es);
            && (r.full <==> Traces.Since(TotalStep, Initial(flow), es, Asks, Resets))
            && (r.dcid == cid <==> Traces.Since(TotalStep, Initial(flow), es, OpensAs(cid), ChangesChannel))
            && (r.handle == link <==> Traces.Since(TotalStep, Initial(flow), es, ComesUp(link), ChangesLink))
  {
    if es != [] {
      var front := es[..|es| - 1];
      FieldsTrace(flow, front, cid, link);
      FieldsStep(Traces.Run(TotalStep, Initial(flow), front), es[|es| - 1]);
      Traces.SinceLast(TotalStep, Initial(flow), es, Asks, Resets);
      Traces.SinceLast(TotalStep, Initial(flow), es, OpensAs(cid), ChangesChannel);
      Traces.SinceLast(TotalStep, Initial(flow), es, ComesUp(link), ChangesLink);
    }
  }

  /**
   * In every run: full reports are on exactly when the console has asked for calibration or firmware since the
   * last reset; the channel is the one opened last and not reset since; and the link the one that came up last
   * and has not gone.
   */
  lemma FieldsFollowTheRun(flow: Flow, es: seq<Event>, cid: u16, link: u16)
    requires LegalRun(Initial(flow), es) && cid != 0 && link != 0
    ensures var r := Run(Initial(flow), es);
            && (r.full <==> Traces.Since(TotalStep, Initial(flow), es, Asks, Resets))
            && (r.dcid == cid <==> Traces.Since(TotalStep, Initial(flow), es, OpensAs(cid), ChangesChannel))
            && (r.handle == link <==> Traces.Since(TotalStep, Initial(flow), es, ComesUp(link), ChangesLink))
  {
    RunIsTrace(Initial(flow), es);
    FieldsTrace(flow, es, cid, link);
  }

  /** Everything the pad said, in order. */
  function SpokenIn(es: seq<Event>): seq<seq<byte>> {
    if es == [] then []
    else
      var e := es[|es| - 1];
      SpokenIn(es[..|es| - 1]) + if e.PadReport? then [e.report] else []
  }

  function ReportsOf(spoken: seq<Spoken>): seq<seq<byte>> {
    seq(|spoken|, i requires 0 <= i < |spoken| => spoken[i].report)
  }

  /** Frames of 79 bytes with the flag bit clear that came on an open channel. */
  function OpaqueAmong(spoken: seq<Spoken>): nat {
    if spoken == [] then 0
    else
      var last := spoken[|spoken| - 1];
      OpaqueAmong(spoken[..|spoken| - 1])
      + if last.open && |last.report| == 79 && last.report[2] % 2 == 0 then 1 else 0
  }

  lemma SpeechStep(r: State, e: Event)
    requires LegalEvent(r, e)
    ensures var t := Step(r, e);
            && t.past.spoken == r.past.spoken + (if e.PadReport? then [Spoken(e.report, r.dcid != 0)] else [])
            && t.stats.opaqueDropped == r.stats.opaqueDropped +
               if e.PadReport? && r.dcid != 0 && |e.report| == 79 && e.report[2] % 2 == 0 then 1 else 0
  {
    assert r.past.spoken + [] == r.past.spoken;
  }

  lemma OpaqueAppend(spoken: seq<Spoken>, s: Spoken)
    ensures OpaqueAmong(spoken + [s])
         == OpaqueAmong(spoken) + if s.open && |s.report| == 79 && s.report[2] % 2 == 0 then 1 else 0
    ensures ReportsOf(spoken + [s]) == ReportsOf(spoken) + [s.report]
  {
    assert (spoken + [s])[..|spoken|] == spoken;
  }

  /** In every run every report is heard, and those dropped as opaque are exactly the frames that are. */
  lemma {:induction false} EveryReportIsHeard(r: State, es: seq<Event>)
    requires LegalRun(r, es)
    ensures var t := Run(r, es);
            && ReportsOf(t.past.spoken) == ReportsOf(r.past.spoken) + SpokenIn(es)
            && t.stats.opaqueDropped - OpaqueAmong(t.past.spoken) == r.stats.opaqueDropped - OpaqueAmong(r.past.spoken)
    decreases es
  {
    if es == [] {
      assert ReportsOf(r.past.spoken) + [] == ReportsOf(r.past.spoken);
    } else {
      var e := es[0];
      SpeechStep(r, e);
      EveryReportIsHeard(Step(r, e), es[1..]);
      SpokenFirst(es);
      if e.PadReport? {
        OpaqueAppend(r.past.spoken, Spoken(e.report, r.dcid != 0));
        ConcatAssociates(ReportsOf(r.past.spoken), [e.report], SpokenIn(es[1..]));
      } else {
        assert r.past.spoken + [] == r.past.spoken;
        assert [] + SpokenIn(es[1..]) == SpokenIn(es[1..]);
      }
    }
  }

  lemma ConcatAssociates(a: seq<seq<byte>>, b: seq<seq<byte>>, c: seq<seq<byte>>)
    ensures a + b + c == a + (b + c)
  {
  }

  lemma {:induction false} SpokenFirst(es: seq<Event>)
    requires es != []
    ensures SpokenIn(es) == (if es[0].PadReport? then [es[0].report] else []) + SpokenIn(es[1..])
  {
    if |es| == 1 {
      assert es[..0] == [] && es[1..] == [];
    } else {
      var front := es[..|es| - 1];
      SpokenFirst(front);
      assert es[1..][..|es[1..]| - 1] == front[1..];
      ConcatAssociates(if es[0].PadReport? then [es[0].report] else [], SpokenIn(front[1..]),
                       if es[|es| - 1].PadReport? then [es[|es| - 1].report] else []);
    }
  }

  // ----------------------------------------------------- the same thing, in place

  class ConsoleLink {
    const acl: AclFlowControl
    const slot: HeldFrame
    const writer: FrameWriter
    var fullReports: bool
    var dcid: u16
    var handle: u16
    var sent: nat
    var backpressure: nat
    var flushed: nat
    var opaqueDropped: nat

    ghost var past: Past

    ghost predicate Valid()
      reads this, acl, slot
    {
      acl.Valid() && slot.Valid() && slot.buf != writer.writeBuffer && writer.writeBuffer.Length == WRITE_BUFFER
    }

    ghost function View(): State
      requires Valid()
      reads this, acl, slot, slot.buf
    {
      State(acl.View(), slot.View(), fullReports, dcid, handle, Stats(sent, backpressure, flushed, opaqueDropped), past)
    }

    constructor (now: int)
      ensures Valid() && fresh(acl) && fresh(slot) && fresh(slot.buf) && fresh(writer.writeBuffer)
      ensures View() == Initial(Flow(0, 2, 3000, map[], 0, now)) && RelayInv(View())
    {
      acl := new AclFlowControl(now);
      slot := new HeldFrame();
      writer := new FrameWriter();
      fullReports, dcid, handle := false, 0, 0;
      sent, backpressure, flushed, opaqueDropped := 0, 0, 0, 0;
      past := Past([], 0, [], 0, 0);
    }

    /** note_input_sent and one of the two send helpers. `wrote` stands for the socket's answer. */
    method SendToConsole(report: seq<byte>, ghost index: nat, wrote: bool)
      requires Valid() && Readable(report, fullReports)
      modifies this, acl, writer.writeBuffer
      ensures Valid() && View() == Deliver(old(View()), index, report, wrote)
    {
      sent := sent + 1;
      var payload := report;
      if !fullReports {
        payload := [HIDP_DATA_INPUT] + CutDown(report);
      }
      var n := writer.SendFrame(handle, dcid, payload[..1], payload[1..]);
      ghost var frame := None;
      if wrote && n > 0 {
        frame := Some(writer.writeBuffer[..n]);
        acl.OnSent(handle);
      }
      ghost var d := Delivery(index, payload, fullReports, |past.spoken|, past.epoch, handle, dcid, frame);
      past := past.(deliveries := past.deliveries + [d]);
    }

    method RelayPadInput(report: seq<byte>, wrote: bool, now: int)
      requires Valid() && (Sends(View(), report, now) ==> Readable(report, fullReports))
      modifies this, acl, slot, slot.buf, writer.writeBuffer
      ensures Valid() && View() == Arrive(old(View()), report, wrote, now)
    {
      ghost var index := |past.spoken|;
      past := past.(spoken := past.spoken + [Spoken(report, dcid != 0)]);
      if dcid == 0 {
        return;
      }
      if Opaque(report) {
        opaqueDropped := opaqueDropped + 1;
        return;
      }
      var room := acl.HasRoom(now);
      if !room {
        backpressure := backpressure + 1;
        slot.Store(report);
        past := past.(heldIndex := index);
        return;
      }
      slot.Clear();
      SendToConsole(report, index, wrote);
    }

    method FlushHeldReport(wrote: bool, now: int)
      requires Valid() && (Flushes(View(), now) ==> Readable(View().held, fullReports))
      modifies this, acl, slot, writer.writeBuffer
      ensures Valid() && View() == Flush(old(View()), wrote, now)
    {
      if slot.len == 0 {
        return;
      }
      var room := acl.HasRoom(now);
      if !room {
        return;
      }
      if dcid == 0 {
        slot.Clear();
        return;
      }
      var held := slot.View();
      slot.Clear();
      flushed := flushed + 1;
      SendToConsole(held, past.heldIndex, wrote);
    }

    method HandleNumCompletedPackets(body: seq<byte>, wrote: bool, now: int)
      requires Valid() && LegalEvent(View(), Completions(body, wrote, now))
      modifies this, acl, slot, writer.writeBuffer
      ensures Valid() && View() == Step(old(View()), Completions(body, wrote, now))
    {
      if body == [] {
        return;
      }
      acl.OnCompletedPackets(body, now);
      FlushHeldReport(wrote, now);
    }

    method HandleFeatureRequest(request: seq<byte>)
      requires Valid()
      modifies this
      ensures Valid() && View() == Step(old(View()), FeatureRequest(request))
    {
      if |request| > 1 && !fullReports
         && (request[1] == REPORT_CALIBRATION || request[1] == REPORT_FIRMWARE) {
        fullReports := true;
      }
    }

    method DoResetChannels()
      requires Valid()
      modifies this
      ensures Valid() && View() == ResetChannels(old(View()))
    {
      dcid, fullReports := 0, false;
      past := past.(since := |past.spoken|, epoch := past.epoch + 1);
    }

    method HandleConnected(link: u16)
      requires Valid()
      modifies this
      ensures Valid() && View() == Step(old(View()), LinkUp(link))
    {
      if handle != 0 && handle != link {
        DoResetChannels();
      }
      handle := link;
    }

    method HandleDisconnected(link: u16)
      requires Valid()
      modifies this, acl, slot
      ensures Valid() && View() == Step(old(View()), LinkDown(link))
    {
      acl.OnDisconnect(link);
      if link != handle {
        return;
      }
      slot.Clear();
      handle := 0;
      DoResetChannels();
    }
  }
}
