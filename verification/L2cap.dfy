/**
 * Recombination of L2CAP PDUs from ACL fragments (src/bluetooth/L2cap.cpp).
 *
 * `Links` is what one adapter knows about its links. `Step` is the effect of one
 * thing the controller reports, `Run` of any sequence of them. The class
 * `Recombiner` does the same in place, packet by packet, and is proved to follow
 * `Step`.
 */
module L2cap {
  import opened Bytes
  import opened PacketCursor
  import Traces

  const ACL_HDR := 4
  const L2CAP_HDR := 4
  const PB_CONT := 1
  const CID_SIGNALLING := 1
  const L2CAP_MAX_PDU := 4 + 65535

  // ---------------------------------------------------------------- data model

  /** A PDU still short of bytes, with the length its own header promises. */
  datatype Partial = Partial(buf: seq<byte>, expected: nat)

  /** One call of route_l2cap_pdu, with the link its bytes came from. */
  datatype Routed = Routed(handle: u16, pdu: seq<byte>)

  datatype Links = Links(
    open: set<u16>,
    ghosts: set<u16>,
    partials: map<u16, Partial>,
    routed: seq<Routed>,
    closing: seq<u16>)

  /** `Acl` carries a packet behind its H4 indicator byte. */
  datatype LinkEvent = Acl(packet: seq<byte>) | Connected(handle: u16) | Disconnected(handle: u16)

  // ------------------------------------------------------------ the ACL header

  predicate HasHeader(packet: seq<byte>) { |packet| >= ACL_HDR }

  function HandleOf(packet: seq<byte>): u16
    requires HasHeader(packet)
  {
    Word(packet, 0) % 0x1000
  }

  function BoundaryFlag(packet: seq<byte>): nat
    requires HasHeader(packet)
  {
    Word(packet, 0) / 0x1000 % 4
  }

  /** What the L2CAP header at the front of `pdu` says the whole PDU measures. */
  function DeclaredSize(pdu: seq<byte>): nat
    requires |pdu| >= L2CAP_HDR
  {
    L2CAP_HDR + Word(pdu, 0)
  }

  predicate WellFormedPdu(pdu: seq<byte>) {
    |pdu| >= L2CAP_HDR && |pdu| == DeclaredSize(pdu)
  }

  // ------------------------------------------------------------- recombination

  /** What one non-empty fragment does to its own link: the new partial and the PDU completed, if any. */
  function Recombine(partial: Option<Partial>, continuation: bool, bytes: seq<byte>)
    : (Option<Partial>, Option<seq<byte>>)
  {
    if continuation then
      if partial.None? then (None, None)
      else
        var buf := partial.value.buf + bytes;
        if |buf| < partial.value.expected then (Some(Partial(buf, partial.value.expected)), None)
        else (None, Some(buf[..partial.value.expected]))
    else if |bytes| < L2CAP_HDR then (None, None)
    else if |bytes| >= DeclaredSize(bytes) then (None, Some(bytes[..DeclaredSize(bytes)]))
    else if DeclaredSize(bytes) > L2CAP_MAX_PDU then (None, None)
    else (Some(Partial(bytes, DeclaredSize(bytes))), None)
  }

  function PartialOn(s: Links, h: u16): Option<Partial> {
    if h in s.partials then Some(s.partials[h]) else None
  }

  function WithPartial(partials: map<u16, Partial>, h: u16, p: Option<Partial>): map<u16, Partial> {
    if p.Some? then partials[h := p.value] else partials - {h}
  }

  function Fragment(s: Links, h: u16, continuation: bool, bytes: seq<byte>): Links {
    var (partial, pdu) := Recombine(PartialOn(s, h), continuation, bytes);
    s.(partials := WithPartial(s.partials, h, partial),
       routed := if pdu.Some? then s.routed + [Routed(h, pdu.value)] else s.routed)
  }

  /** handle_acl. */
  function AclStep(s: Links, packet: seq<byte>): Links {
    if !HasHeader(packet) then s
    else
      var h := HandleOf(packet);
      if h !in s.open then
        if h in s.ghosts then s else s.(ghosts := s.ghosts + {h}, closing := s.closing + [h])
      else if |packet| == ACL_HDR then s
      else Fragment(s, h, BoundaryFlag(packet) == PB_CONT, packet[ACL_HDR..])
  }

  function Step(s: Links, e: LinkEvent): Links {
    match e
    case Acl(packet) => AclStep(s, packet)
    case Connected(h) => s.(open := s.open + {h})
    case Disconnected(h) => s.(open := s.open - {h}, ghosts := s.ghosts - {h}, partials := s.partials - {h})
  }

  function Run(s: Links, es: seq<LinkEvent>): Links {
    if es == [] then s else Step(Run(s, es[..|es| - 1]), es[|es| - 1])
  }

  lemma {:induction false} RunAppend(s: Links, a: seq<LinkEvent>, b: seq<LinkEvent>)
    ensures Run(s, a + b) == Run(Run(s, a), b)
  {
    if b == [] {
      assert a + b == a;
    } else {
      RunAppend(s, a, b[..|b| - 1]);
      assert (a + b)[..|a + b| - 1] == a + b[..|b| - 1];
    }
  }

  // ------------------------------------------------------ what every step keeps

  predicate GoodPartial(p: Partial) {
    L2CAP_HDR <= |p.buf| < p.expected == DeclaredSize(p.buf)
  }

  /**
   * Stored partials are short of their declared size and belong to open links; routed PDUs are exactly their
   * declared size.
   */
  ghost predicate LinksInv(s: Links) {
    && (forall h <- s.partials :: h in s.open && GoodPartial(s.partials[h]))
    && (forall i :: 0 <= i < |s.routed| ==> WellFormedPdu(s.routed[i].pdu))
  }

  lemma WordOfPrefix(a: seq<byte>, b: seq<byte>)
    requires a <= b && |a| >= 2
    ensures Word(a, 0) == Word(b, 0)
  {
  }

  lemma RecombineIsGood(partial: Option<Partial>, continuation: bool, bytes: seq<byte>)
    requires partial.Some? ==> GoodPartial(partial.value)
    ensures var (next, pdu) := Recombine(partial, continuation, bytes);
            && (next.Some? ==> GoodPartial(next.value))
            && (pdu.Some? ==> WellFormedPdu(pdu.value))
  {
    if continuation {
      if partial.Some? {
        var buf := partial.value.buf + bytes;
        WordOfPrefix(partial.value.buf, buf);
        if |buf| >= partial.value.expected {
          WordOfPrefix(buf[..partial.value.expected], buf);
        }
      }
    } else if |bytes| >= L2CAP_HDR && |bytes| >= DeclaredSize(bytes) {
      WordOfPrefix(bytes[..DeclaredSize(bytes)], bytes);
    }
  }

  lemma StepKeepsLinksInv(s: Links, e: LinkEvent)
    requires LinksInv(s)
    ensures LinksInv(Step(s, e))
  {
    if e.Acl? && HasHeader(e.packet) {
      RecombineIsGood(PartialOn(s, HandleOf(e.packet)), BoundaryFlag(e.packet) == PB_CONT, e.packet[ACL_HDR..]);
    }
  }

  lemma {:induction false} RunKeepsLinksInv(s: Links, es: seq<LinkEvent>)
    requires LinksInv(s)
    ensures LinksInv(Run(s, es))
  {
    if es != [] {
      RunKeepsLinksInv(s, es[..|es| - 1]);
      StepKeepsLinksInv(Run(s, es[..|es| - 1]), es[|es| - 1]);
    }
  }

  /** The implausible-length test after the whole-PDU test can never fire: a uint16_t length fits under it. */
  lemma ImplausibleLengthUnreachable(pdu: seq<byte>)
    requires |pdu| >= L2CAP_HDR
    ensures DeclaredSize(pdu) <= L2CAP_MAX_PDU
  {
  }

  // -------------------------------------------------- links do not see each other

  predicate Concerns(e: LinkEvent, h: u16) {
    match e
    case Acl(packet) => HasHeader(packet) && HandleOf(packet) == h
    case Connected(h') => h' == h
    case Disconnected(h') => h' == h
  }

  function Project(es: seq<LinkEvent>, h: u16): seq<LinkEvent> {
    if es == [] then []
    else
      var rest := Project(es[..|es| - 1], h);
      if Concerns(es[|es| - 1], h) then rest + [es[|es| - 1]] else rest
  }

  function RoutedOn(routed: seq<Routed>, h: u16): seq<seq<byte>> {
    if routed == [] then []
    else
      var rest := RoutedOn(routed[..|routed| - 1], h);
      if routed[|routed| - 1].handle == h then rest + [routed[|routed| - 1].pdu] else rest
  }

  lemma RoutedOnAppend(routed: seq<Routed>, r: Routed, h: u16)
    ensures RoutedOn(routed + [r], h) == RoutedOn(routed, h) + if r.handle == h then [r.pdu] else []
  {
    assert (routed + [r])[..|routed|] == routed;
  }

  /** Two adapters that agree about one link. */
  ghost predicate SameLink(a: Links, b: Links, h: u16) {
    && (h in a.open <==> h in b.open)
    && PartialOn(a, h) == PartialOn(b, h)
    && RoutedOn(a.routed, h) == RoutedOn(b.routed, h)
  }

  lemma StepElsewhere(s: Links, e: LinkEvent, h: u16)
    requires !Concerns(e, h)
    ensures SameLink(Step(s, e), s, h)
  {
    if e.Acl? && HasHeader(e.packet) && Step(s, e).routed != s.routed {
      var n := Step(s, e).routed;
      RoutedOnAppend(s.routed, n[|n| - 1], h);
    }
  }

  lemma FragmentHere(s: Links, h: u16, continuation: bool, bytes: seq<byte>)
    ensures var t := Fragment(s, h, continuation, bytes);
            var (partial, pdu) := Recombine(PartialOn(s, h), continuation, bytes);
            && PartialOn(t, h) == partial
            && RoutedOn(t.routed, h) == RoutedOn(s.routed, h) + if pdu.Some? then [pdu.value] else []
  {
    var (partial, pdu) := Recombine(PartialOn(s, h), continuation, bytes);
    if pdu.Some? {
      RoutedOnAppend(s.routed, Routed(h, pdu.value), h);
    }
  }

  lemma StepHere(a: Links, b: Links, e: LinkEvent, h: u16)
    requires Concerns(e, h) && SameLink(a, b, h)
    ensures SameLink(Step(a, e), Step(b, e), h)
  {
    if e.Acl? {
      FragmentHere(a, h, BoundaryFlag(e.packet) == PB_CONT, e.packet[ACL_HDR..]);
      FragmentHere(b, h, BoundaryFlag(e.packet) == PB_CONT, e.packet[ACL_HDR..]);
    }
  }

  /** However the links' events interleave, one link ends up as if the others had been silent. */
  lemma {:induction false} LinksAreIndependent(s: Links, es: seq<LinkEvent>, h: u16)
    ensures SameLink(Run(s, es), Run(s, Project(es, h)), h)
  {
    if es != [] {
      var front, e := es[..|es| - 1], es[|es| - 1];
      LinksAreIndependent(s, front, h);
      if Concerns(e, h) {
        StepHere(Run(s, front), Run(s, Project(front, h)), e, h);
        assert Project(es, h)[..|Project(es, h)| - 1] == Project(front, h);
      } else {
        StepElsewhere(Run(s, front), e, h);
      }
    }
  }

  // ------------------------------------------------ every legal cut is recombined

  /** A PDU and one way of cutting it into ACL fragments. */
  datatype Cut = Cut(pdu: seq<byte>, fragments: seq<seq<byte>>)

  ghost predicate LegalCut(c: Cut) {
    && WellFormedPdu(c.pdu)
    && |c.fragments| >= 1
    && |c.fragments[0]| >= L2CAP_HDR
    && (forall i :: 0 <= i < |c.fragments| ==> c.fragments[i] != [])
    && Concat(c.fragments) == c.pdu
  }

  ghost predicate CarriesFragment(e: LinkEvent, h: u16, continuation: bool, bytes: seq<byte>) {
    && e.Acl? && HasHeader(e.packet) && HandleOf(e.packet) == h
    && (BoundaryFlag(e.packet) == PB_CONT <==> continuation)
    && e.packet[ACL_HDR..] == bytes
  }

  /** Consecutive packets of link `h` carrying the fragments, the first as a start and the rest as continuations. */
  ghost predicate Carries(es: seq<LinkEvent>, h: u16, fragments: seq<seq<byte>>) {
    && |es| == |fragments|
    && forall i :: 0 <= i < |es| ==> CarriesFragment(es[i], h, i > 0, fragments[i])
  }

  ghost predicate CarriesAll(es: seq<LinkEvent>, h: u16, cuts: seq<Cut>) {
    if cuts == [] then es == []
    else
      var n := |cuts[0].fragments|;
      n <= |es| && Carries(es[..n], h, cuts[0].fragments) && CarriesAll(es[n..], h, cuts[1..])
  }

  function Pdus(cuts: seq<Cut>): seq<seq<byte>> {
    if cuts == [] then [] else [cuts[0].pdu] + Pdus(cuts[1..])
  }

  /** The first k fragments are a proper prefix of the PDU until k is all of them. */
  lemma {:induction false} ConcatPrefix(parts: seq<seq<byte>>, k: nat)
    requires k <= |parts|
    requires forall i :: 0 <= i < |parts| ==> parts[i] != []
    ensures Concat(parts[..k]) <= Concat(parts)
    ensures k < |parts| ==> |Concat(parts[..k])| < |Concat(parts)|
    ensures k >= 1 ==> |Concat(parts[..k])| >= |parts[0]| && parts[0] <= Concat(parts[..k])
  {
    if k > 0 {
      ConcatPrefix(parts[1..], k - 1);
      assert parts[..k][1..] == parts[1..][..k - 1];
    }
  }

  /** Recombination of a whole cut, seen from its own link: what is kept and what is complete after k fragments. */
  lemma CutStep(c: Cut, k: nat, before: Option<Partial>)
    requires LegalCut(c) && 1 <= k <= |c.fragments|
    requires k > 1 ==> before == Some(Partial(Concat(c.fragments[..k - 1]), |c.pdu|))
    ensures Recombine(before, k > 1, c.fragments[k - 1]) ==
            if k < |c.fragments| then (Some(Partial(Concat(c.fragments[..k]), |c.pdu|)), None) else (None, Some(c.pdu))
  {
    var fs := c.fragments;
    ConcatPrefix(fs, k);
    ConcatAppend(fs[..k - 1], fs[k - 1]);
    assert fs[..k] == fs[..k - 1] + [fs[k - 1]];
    assert c.pdu[..|c.pdu|] == c.pdu;
    if k == |fs| {
      assert fs[..k] == fs;
    }
    if k == 1 {
      assert Concat(fs[..k]) == [] + fs[0] == fs[0];
      WordOfPrefix(fs[0], c.pdu);
    }
  }

  lemma {:induction false} FragmentsSoFar(s: Links, es: seq<LinkEvent>, h: u16, c: Cut, k: nat)
    requires LegalCut(c) && Carries(es, h, c.fragments) && h in s.open
    requires 1 <= k <= |es|
    ensures var t := Run(s, es[..k]);
            && h in t.open
            && (k < |es| ==> && PartialOn(t, h) == Some(Partial(Concat(c.fragments[..k]), |c.pdu|))
                             && t.routed == s.routed)
            && (k == |es| ==> PartialOn(t, h) == None && t.routed == s.routed + [Routed(h, c.pdu)])
  {
    assert es[..k][..k - 1] == es[..k - 1];
    var before := Run(s, es[..k - 1]);
    if k > 1 {
      FragmentsSoFar(s, es, h, c, k - 1);
    }
    CutStep(c, k, PartialOn(before, h));
    assert CarriesFragment(es[k - 1], h, k - 1 > 0, c.fragments[k - 1]);
  }

  /** One legally cut PDU, from any state of its link: routed once, exactly its bytes, nothing left over. */
  lemma OnePdu(s: Links, es: seq<LinkEvent>, h: u16, c: Cut)
    requires LegalCut(c) && Carries(es, h, c.fragments) && h in s.open
    ensures var t := Run(s, es);
            h in t.open && PartialOn(t, h) == None && t.routed == s.routed + [Routed(h, c.pdu)]
  {
    FragmentsSoFar(s, es, h, c, |es|);
    assert es[..|es|] == es;
  }

  /** Between `s` and `t`, link `h` was handed exactly these PDUs and keeps nothing of them. */
  ghost predicate Delivered(s: Links, t: Links, h: u16, pdus: seq<seq<byte>>) {
    && RoutedOn(t.routed, h) == RoutedOn(s.routed, h) + pdus
    && PartialOn(t, h) == if pdus == [] then PartialOn(s, h) else None
  }

  lemma DeliveredFirst(s: Links, mid: Links, t: Links, h: u16, pdu: seq<byte>, rest: seq<seq<byte>>)
    requires mid.routed == s.routed + [Routed(h, pdu)] && PartialOn(mid, h) == None
    requires Delivered(mid, t, h, rest)
    ensures Delivered(s, t, h, [pdu] + rest)
  {
    RoutedOnAppend(s.routed, Routed(h, pdu), h);
    assert RoutedOn(s.routed, h) + [pdu] + rest == RoutedOn(s.routed, h) + ([pdu] + rest);
  }

  lemma {:induction false} OneLink(s: Links, es: seq<LinkEvent>, h: u16, cuts: seq<Cut>)
    requires h in s.open && CarriesAll(es, h, cuts)
    requires forall i :: 0 <= i < |cuts| ==> LegalCut(cuts[i])
    ensures Delivered(s, Run(s, es), h, Pdus(cuts))
    decreases cuts
  {
    if cuts != [] {
      var n := |cuts[0].fragments|;
      var first, rest := es[..n], es[n..];
      assert es == first + rest;
      RunAppend(s, first, rest);
      OnePdu(s, first, h, cuts[0]);
      var mid := Run(s, first);
      OneLink(mid, rest, h, cuts[1..]);
      DeliveredFirst(s, mid, Run(mid, rest), h, cuts[0].pdu, Pdus(cuts[1..]));
    }
  }

  lemma {:induction false} RoutedOnlyOnOpenLinks(s: Links, es: seq<LinkEvent>)
    requires forall i :: 0 <= i < |es| ==> es[i].Acl?
    ensures var t := Run(s, es);
            && t.open == s.open
            && s.routed <= t.routed
            && forall i :: |s.routed| <= i < |t.routed| ==> t.routed[i].handle in s.open
  {
    if es != [] {
      RoutedOnlyOnOpenLinks(s, es[..|es| - 1]);
    }
  }

  /**
   * For every plan of PDUs per link, every legal cut of each and every interleaving of the links' packets:
   * each link's PDUs are routed in order, exactly once and byte for byte, nothing else is routed on any
   * link, and nothing is left waiting.
   */
  lemma EveryInterleavingIsRecombined(s: Links, es: seq<LinkEvent>, plan: map<u16, seq<Cut>>)
    requires forall i :: 0 <= i < |es| ==> es[i].Acl?
    requires forall h <- s.open ::
               && h in plan
               && (forall i :: 0 <= i < |plan[h]| ==> LegalCut(plan[h][i]))
               && CarriesAll(Project(es, h), h, plan[h])
    ensures var t := Run(s, es);
            && (forall h <- s.open :: Delivered(s, t, h, Pdus(plan[h])))
            && (forall i :: |s.routed| <= i < |t.routed| ==> t.routed[i].handle in s.open)
  {
    RoutedOnlyOnOpenLinks(s, es);
    forall h | h in s.open
      ensures Delivered(s, Run(s, es), h, Pdus(plan[h]))
    {
      LinksAreIndependent(s, es, h);
      OneLink(s, Project(es, h), h, plan[h]);
    }
  }

  // ------------------------------------- every run, byte by byte, legal or not

  // The ACL header and the L2CAP length as they lie in the packet.
  function HandleBits(packet: seq<byte>): u16
    requires |packet| >= 4
  {
    packet[0] as int + 0x100 * (packet[1] as int % 0x10)
  }

  predicate ContinuationBits(packet: seq<byte>)
    requires |packet| >= 4
  {
    packet[1] / 0x10 % 4 == 1
  }

  function Promised(bytes: seq<byte>): nat
    requires |bytes| >= 4
  {
    4 + bytes[0] as int + 0x100 * (bytes[1] as int)
  }

  lemma HeaderBits(packet: seq<byte>)
    requires |packet| >= 4
    ensures HandleOf(packet) == HandleBits(packet)
    ensures BoundaryFlag(packet) == PB_CONT <==> ContinuationBits(packet)
    ensures DeclaredSize(packet) == Promised(packet)
  {
    LeastByteFirst(packet, 0);
    var word := Word(packet, 0);
    assert word == packet[0] as int + 0x100 * (packet[1] as int);
    assert word / 0x1000 == packet[1] / 0x10;
  }

  /** A packet with something in it for an open link. */
  predicate Brings(s: Links, e: LinkEvent, h: u16) {
    e.Acl? && |e.packet| > 4 && HandleBits(e.packet) == h && h in s.open
  }

  /** All that link h has brought since the last start that had room for a header. */
  function SinceStart(s: Links, es: seq<LinkEvent>, h: u16): Option<seq<byte>> {
    if es == [] then None
    else
      var front, e := es[..|es| - 1], es[|es| - 1];
      var before := SinceStart(s, front, h);
      if e == Disconnected(h) then None
      else if !Brings(Run(s, front), e, h) then before
      else if ContinuationBits(e.packet) then
        if before.Some? then Some(before.value + e.packet[4..]) else None
      else if |e.packet| < 8 then None
      else Some(e.packet[4..])
  }

  predicate Enough(bytes: seq<byte>) { |bytes| >= 4 && |bytes| >= Promised(bytes) }

  /** The PDUs link h completes: whenever what it has brought since a start first reaches the promised length. */
  function Completions(s: Links, es: seq<LinkEvent>, h: u16): seq<seq<byte>> {
    if es == [] then []
    else
      var front, e := es[..|es| - 1], es[|es| - 1];
      var before, after := SinceStart(s, front, h), SinceStart(s, es, h);
      Completions(s, front, h) +
      if !Brings(Run(s, front), e, h) || after.None? || !Enough(after.value) then []
      else if ContinuationBits(e.packet) && before.Some? && Enough(before.value) then []
      else [after.value[..Promised(after.value)]]
  }

  lemma {:induction false} SinceStartHasHeader(s: Links, es: seq<LinkEvent>, h: u16)
    ensures SinceStart(s, es, h).Some? ==> |SinceStart(s, es, h).value| >= 4
  {
    if es != [] {
      SinceStartHasHeader(s, es[..|es| - 1], h);
    }
  }

  /** What is kept of a link: the bytes since its start while they fall short of the promise. */
  predicate Keeps(partial: Option<Partial>, since: Option<seq<byte>>) {
    partial == if since.Some? && |since.value| >= 4 && |since.value| < Promised(since.value)
               then Some(Partial(since.value, Promised(since.value))) else None
  }

  /** One fragment, against the bytes since the start. */
  lemma FragmentAgainstBytes(partial: Option<Partial>, before: Option<seq<byte>>, continuation: bool, bytes: seq<byte>)
    requires Keeps(partial, before) && (before.Some? ==> |before.value| >= 4) && bytes != []
    ensures var after := if continuation then (if before.Some? then Some(before.value + bytes) else None)
                         else if |bytes| < 4 then None else Some(bytes);
            var (next, pdu) := Recombine(partial, continuation, bytes);
            && Keeps(next, after)
            && (pdu == if after.None? || !Enough(after.value) || (continuation && Enough(before.value)) then None
                       else Some(after.value[..Promised(after.value)]))
  {
    if continuation {
      if before.Some? {
        var all := before.value + bytes;
        assert all[0] == before.value[0] && all[1] == before.value[1];
      }
    } else if |bytes| >= 4 {
      HeaderBits(bytes);
    }
  }

  /**
   * For every run of packets, connections and disconnections, well-formed or not: each link routes exactly
   * the PDUs that the bytes since its starts complete, in order, and keeps exactly what is still short.
   */
  lemma {:induction false} RoutedExactlyWhenComplete(s: Links, es: seq<LinkEvent>, h: u16)
    requires s.partials == map[]
    ensures RoutedOn(Run(s, es).routed, h) == RoutedOn(s.routed, h) + Completions(s, es, h)
    ensures Keeps(PartialOn(Run(s, es), h), SinceStart(s, es, h))
  {
    if es != [] {
      var front, e := es[..|es| - 1], es[|es| - 1];
      RoutedExactlyWhenComplete(s, front, h);
      SinceStartHasHeader(s, front, h);
      var t := Run(s, front);
      if Brings(t, e, h) {
        HeaderBits(e.packet);
        FragmentHere(t, h, ContinuationBits(e.packet), e.packet[4..]);
        FragmentAgainstBytes(PartialOn(t, h), SinceStart(s, front, h), ContinuationBits(e.packet), e.packet[4..]);
      } else {
        NothingForLink(t, e, h);
      }
    }
  }

  lemma NothingForLink(t: Links, e: LinkEvent, h: u16)
    requires !Brings(t, e, h)
    ensures RoutedOn(Step(t, e).routed, h) == RoutedOn(t.routed, h)
    ensures PartialOn(Step(t, e), h) == if e == Disconnected(h) then None else PartialOn(t, h)
  {
    if e.Acl? && |e.packet| >= 4 {
      HeaderBits(e.packet);
    }
    if !Concerns(e, h) {
      StepElsewhere(t, e, h);
    }
  }

  // ------------------------------------------------------- links nobody here opened

  /** A packet on link h, whatever is in it. */
  predicate Speaks(e: LinkEvent, h: u16) { e.Acl? && |e.packet| >= 4 && HandleBits(e.packet) == h }

  function Opens(h: u16): (Links, LinkEvent) -> bool { (s: Links, e: LinkEvent) => e == Connected(h) }

  function Goes(h: u16): (Links, LinkEvent) -> bool { (s: Links, e: LinkEvent) => e == Disconnected(h) }

  function Intrudes(h: u16): (Links, LinkEvent) -> bool {
    (s: Links, e: LinkEvent) => Speaks(e, h) && h !in s.open
  }

  lemma {:induction false} RunIsTrace(s: Links, es: seq<LinkEvent>)
    ensures Run(s, es) == Traces.Run(Step, s, es)
  {
    if es != [] {
      RunIsTrace(s, es[..|es| - 1]);
    }
  }

  /**
   * A link is open from its connection to its disconnection, and known for a stranger from its first packet to
   * its own.
   */
  lemma {:induction false} LinksFollowTheRun(s: Links, es: seq<LinkEvent>, h: u16)
    requires s.open == {} && s.ghosts == {}
    ensures var t := Traces.Run(Step, s, es);
            && (h in t.open <==> Traces.Since(Step, s, es, Opens(h), Goes(h)))
            && (h in t.ghosts <==> Traces.Since(Step, s, es, Intrudes(h), Goes(h)))
  {
    if es != [] {
      var front, e := es[..|es| - 1], es[|es| - 1];
      LinksFollowTheRun(s, front, h);
      if e.Acl? && |e.packet| >= 4 {
        HeaderBits(e.packet);
      }
      Traces.SinceLast(Step, s, es, Opens(h), Goes(h));
      Traces.SinceLast(Step, s, es, Intrudes(h), Goes(h));
    }
  }

  /**
   * In every run a link is asked to close exactly when it speaks, is not open, and has not been asked since it
   * last went.
   */
  lemma StrangersAreClosedOnce(s: Links, es: seq<LinkEvent>, e: LinkEvent)
    requires s.open == {} && s.ghosts == {}
    ensures var t := Run(s, es);
            var asked := Step(t, e).closing;
            if e.Acl? && |e.packet| >= 4 && HandleBits(e.packet) !in t.open
               && !Traces.Since(Step, s, es, Intrudes(HandleBits(e.packet)), Goes(HandleBits(e.packet)))
            then asked == t.closing + [HandleBits(e.packet)]
            else asked == t.closing
  {
    RunIsTrace(s, es);
    if e.Acl? && |e.packet| >= 4 {
      HeaderBits(e.packet);
      LinksFollowTheRun(s, es, HandleBits(e.packet));
    }
  }

  // ------------------------------------------------------------------- routing

  /** What route_l2cap_pdu makes of a PDU, up to the choice of channel. */
  datatype Routing = Malformed | Empty | Signalling(body: seq<byte>) | Payload(cid: u16, bytes: seq<byte>)

  function Route(pdu: seq<byte>): Routing {
    if |pdu| < L2CAP_HDR then Malformed
    else if Word(pdu, 2) == CID_SIGNALLING then Signalling(pdu[L2CAP_HDR..])
    else if |pdu| < DeclaredSize(pdu) then Malformed
    else if Word(pdu, 0) == 0 then Empty
    else Payload(Word(pdu, 2), pdu[L2CAP_HDR..DeclaredSize(pdu)])
  }

  /** What becomes of any PDU, in its own bytes: refused, empty, signalling, or handed to the channel it names. */
  lemma RouteIsExactly(pdu: seq<byte>)
    ensures Route(pdu) ==
            if |pdu| < 4 then Malformed
            else if pdu[2] == 1 && pdu[3] == 0 then Signalling(pdu[4..])
            else if |pdu| < Promised(pdu) then Malformed
            else if Promised(pdu) == 4 then Empty
            else Payload(pdu[2] as int + 0x100 * (pdu[3] as int), pdu[4..Promised(pdu)])
  {
    if |pdu| >= 4 {
      HeaderBits(pdu);
      LeastByteFirst(pdu, 2);
    }
  }

  /**
   * Reassembly never hands a PDU on that routing would have to refuse, and a payload is all of the PDU behind
   * its header.
   */
  lemma RunNeverRoutesMalformed(s: Links, es: seq<LinkEvent>, i: nat)
    requires LinksInv(s) && i < |Run(s, es).routed|
    ensures var pdu := Run(s, es).routed[i].pdu;
            && !Route(pdu).Malformed?
            && (Route(pdu).Payload? ==> pdu == pdu[..L2CAP_HDR] + Route(pdu).bytes)
            && (Route(pdu).Signalling? ==> pdu == pdu[..L2CAP_HDR] + Route(pdu).body)
  {
    RunKeepsLinksInv(s, es);
  }

  // ----------------------------------------------------- the same thing, in place

  class Recombiner {
    var openHandles: set<u16>
    var ghostHandles: set<u16>
    var reasm: map<u16, Partial>
    var routed: seq<Routed>
    var closing: seq<u16>

    function View(): Links
      reads this
    {
      Links(openHandles, ghostHandles, reasm, routed, closing)
    }

    constructor ()
      ensures View() == Links({}, {}, map[], [], []) && LinksInv(View())
    {
      openHandles, ghostHandles, reasm, routed, closing := {}, {}, map[], [], [];
    }

    method HandleAcl(packet: seq<byte>)
      modifies this
      ensures View() == AclStep(old(View()), packet)
    {
      var cursor := new PacketContents(packet);
      var header := cursor.Get(ACL_HDR);
      if header.None? {
        return;
      }
      assert header.value == packet[..ACL_HDR];
      var field := Word(header.value, 0);
      var handle, pb := field % 0x1000, field / 0x1000 % 4;
      if handle !in openHandles {
        if handle !in ghostHandles {
          ghostHandles := ghostHandles + {handle};
          closing := closing + [handle];
        }
        return;
      }
      var avail := cursor.Remaining();
      var payload := cursor.Get(avail);
      if payload.None? || avail == 0 {
        return;
      }
      assert payload.value == packet[ACL_HDR..];
      if pb == PB_CONT {
        Continue(handle, payload.value);
      } else {
        Start(handle, payload.value);
      }
    }

    method Continue(handle: u16, bytes: seq<byte>)
      modifies this
      ensures View() == Fragment(old(View()), handle, true, bytes)
    {
      if handle !in reasm {
        assert reasm == reasm - {handle};
        return;
      }
      var r := reasm[handle];
      r := r.(buf := r.buf + bytes);
      reasm := reasm[handle := r];
      if |r.buf| < r.expected {
        return;
      }
      routed := routed + [Routed(handle, r.buf[..r.expected])];
      reasm := reasm - {handle};
      assert reasm == old(reasm) - {handle};
    }

    method Start(handle: u16, bytes: seq<byte>)
      modifies this
      ensures View() == Fragment(old(View()), handle, false, bytes)
    {
      reasm := reasm - {handle};
      if |bytes| < L2CAP_HDR {
        return;
      }
      var expected := L2CAP_HDR + Word(bytes, 0);
      if |bytes| >= expected {
        routed := routed + [Routed(handle, bytes[..expected])];
        return;
      }
      if expected > L2CAP_MAX_PDU {
        return;
      }
      reasm := reasm[handle := Partial(bytes, expected)];
      assert reasm == old(reasm)[handle := Partial(bytes, expected)];
    }

    method LinkOpened(handle: u16)
      modifies this
      ensures View() == Step(old(View()), Connected(handle))
    {
      openHandles := openHandles + {handle};
    }

    method LinkClosed(handle: u16)
      modifies this
      ensures View() == Step(old(View()), Disconnected(handle))
    {
      openHandles := openHandles - {handle};
      ghostHandles := ghostHandles - {handle};
      reasm := reasm - {handle};
    }
  }
}
