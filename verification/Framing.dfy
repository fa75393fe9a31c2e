/**
 * The one place an outgoing ACL frame is built (l2cap_send_frame in
 * src/bluetooth/L2cap.cpp), and the proof that recombination undoes it.
 */
module Framing {
  import opened Bytes
  import opened L2cap

  const ACLDATA_PKT: byte := 2
  const START_FLUSHABLE := 2
  const WRITE_BUFFER := 4096
  const FRAME_OVERHEAD := 1 + ACL_HDR + L2CAP_HDR

  /** acl_header_handle: 12 bits of handle under two bits of boundary flag. */
  function AclHeaderHandle(handle: u16, flag: u16): u16 {
    handle % 0x1000 + 0x1000 * (flag % 4)
  }

  /** A basic-mode PDU: length, channel, payload. */
  function Pdu(cid: u16, payload: seq<byte>): seq<byte> {
    Le16(ToU16(|payload|)) + Le16(cid) + payload
  }

  /** The whole frame as written to the socket, or nothing when the size guard refuses it. */
  function Frame(handle: u16, cid: u16, prefix: seq<byte>, data: seq<byte>): Option<seq<byte>> {
    var n := |prefix| + |data|;
    if FRAME_OVERHEAD + n > WRITE_BUFFER then None
    else Some([ACLDATA_PKT] + Le16(AclHeaderHandle(handle, START_FLUSHABLE)) + Le16(ToU16(L2CAP_HDR + n))
              + Pdu(cid, prefix + data))
  }

  /** A PDU that fits the guard declares its true length, and routing reads back the channel and payload put in. */
  lemma PduReadsBack(cid: u16, payload: seq<byte>)
    requires FRAME_OVERHEAD + |payload| <= WRITE_BUFFER
    ensures WellFormedPdu(Pdu(cid, payload))
    ensures Route(Pdu(cid, payload)) ==
            if cid == CID_SIGNALLING then Signalling(payload)
            else if payload == [] then Empty
            else Payload(cid, payload)
  {
    var pdu := Pdu(cid, payload);
    WordOfLe16([], ToU16(|payload|), Le16(cid) + payload);
    assert [] + Le16(ToU16(|payload|)) + (Le16(cid) + payload) == pdu;
    WordOfLe16(Le16(ToU16(|payload|)), cid, payload);
    assert pdu[L2CAP_HDR..] == payload;
  }

  /** The frame behind its indicator byte is an ACL start on the same link, its two length fields exact. */
  lemma FrameIsStart(handle: u16, cid: u16, prefix: seq<byte>, data: seq<byte>)
    requires Frame(handle, cid, prefix, data).Some?
    ensures var bytes := Frame(handle, cid, prefix, data).value;
            && bytes[0] == ACLDATA_PKT
            && CarriesFragment(Acl(bytes[1..]), handle % 0x1000, false, Pdu(cid, prefix + data))
            && BoundaryFlag(bytes[1..]) == 2
            && Word(bytes, 3) == |bytes| - 1 - ACL_HDR
            && Word(bytes, 5) == |prefix| + |data|
  {
    var n := |prefix| + |data|;
    var field, dlen, pdu := AclHeaderHandle(handle, START_FLUSHABLE), ToU16(L2CAP_HDR + n), Pdu(cid, prefix + data);
    var bytes := Frame(handle, cid, prefix, data).value;
    var packet := bytes[1..];
    assert packet == [] + Le16(field) + (Le16(dlen) + pdu);
    WordOfLe16([], field, Le16(dlen) + pdu);
    assert packet[ACL_HDR..] == pdu;
    WordOfLe16([ACLDATA_PKT] + Le16(field), dlen, pdu);
    assert bytes == [ACLDATA_PKT] + Le16(field) + Le16(dlen) + Le16(ToU16(n)) + (Le16(cid) + prefix + data);
    WordOfLe16([ACLDATA_PKT] + Le16(field) + Le16(dlen), ToU16(n), Le16(cid) + prefix + data);
  }

  /** A frame is built exactly when it fits the write buffer of 4096 bytes, nine of them headers. */
  lemma FrameFits(handle: u16, cid: u16, prefix: seq<byte>, data: seq<byte>)
    ensures var frame := Frame(handle, cid, prefix, data);
            && (frame.Some? <==> |prefix| + |data| <= 4096 - 9)
            && (frame.Some? ==> |frame.value| == 9 + |prefix| + |data|)
  {
  }

  /**
   * Framing and recombination undo each other: the PDU inside any frame that passes the size guard, re-cut
   * in any legal way, reaches routing on the same link with the same channel and the payload prefix ++ data.
   */
  lemma FramingRoundTrip(handle: u16, cid: u16, prefix: seq<byte>, data: seq<byte>,
                         s: Links, es: seq<LinkEvent>, fragments: seq<seq<byte>>)
    requires Frame(handle, cid, prefix, data).Some? && handle % 0x1000 in s.open
    requires LegalCut(Cut(Frame(handle, cid, prefix, data).value[1 + ACL_HDR..], fragments))
    requires Carries(es, handle % 0x1000, fragments)
    ensures var pdu := Pdu(cid, prefix + data);
            && Run(s, es).routed == s.routed + [Routed(handle % 0x1000, pdu)]
            && Route(pdu) == if cid == CID_SIGNALLING then Signalling(prefix + data)
                             else if prefix + data == [] then Empty
                             else Payload(cid, prefix + data)
  {
    FrameIsStart(handle, cid, prefix, data);
    var bytes := Frame(handle, cid, prefix, data).value;
    assert bytes[1 + ACL_HDR..] == bytes[1..][ACL_HDR..];
    OnePdu(s, es, handle % 0x1000, Cut(bytes[1 + ACL_HDR..], fragments));
    PduReadsBack(cid, prefix + data);
  }

  /** Sent whole, without any re-cutting, the frame is its own legal cut. */
  lemma WholeFrameArrives(handle: u16, cid: u16, prefix: seq<byte>, data: seq<byte>, s: Links)
    requires Frame(handle, cid, prefix, data).Some? && handle % 0x1000 in s.open
    ensures AclStep(s, Frame(handle, cid, prefix, data).value[1..]).routed
         == s.routed + [Routed(handle % 0x1000, Pdu(cid, prefix + data))]
  {
    var pdu := Pdu(cid, prefix + data);
    var e := Acl(Frame(handle, cid, prefix, data).value[1..]);
    FrameIsStart(handle, cid, prefix, data);
    PduReadsBack(cid, prefix + data);
    assert Concat([pdu]) == pdu + Concat([]) == pdu;
    OnePdu(s, [e], handle % 0x1000, Cut(pdu, [pdu]));
    assert [e][..0] == [];
    assert Run(s, [e]) == Step(Run(s, [e][..0]), e);
  }

  /** The receiver sees the sender's own handle exactly when it is one of the 12-bit handles HCI gives out. */
  lemma HandleSurvives(handle: u16, cid: u16, prefix: seq<byte>, data: seq<byte>)
    requires Frame(handle, cid, prefix, data).Some?
    ensures HandleOf(Frame(handle, cid, prefix, data).value[1..]) == handle <==> handle < 0x1000
  {
    FrameIsStart(handle, cid, prefix, data);
  }

  lemma FrameInParts(handle: u16, cid: u16, prefix: seq<byte>, data: seq<byte>)
    requires Frame(handle, cid, prefix, data).Some?
    ensures var n := |prefix| + |data|;
            var aclHeader := Le16(AclHeaderHandle(handle, START_FLUSHABLE)) + Le16(ToU16(L2CAP_HDR + n));
            var header := Le16(ToU16(n)) + Le16(cid);
            Frame(handle, cid, prefix, data).value == [ACLDATA_PKT] + aclHeader + header + prefix + data
  {
  }

  class FrameWriter {
    const writeBuffer: array<byte>

    constructor ()
      ensures writeBuffer.Length == WRITE_BUFFER && fresh(writeBuffer)
    {
      writeBuffer := new byte[WRITE_BUFFER](_ => 0);
    }

    /**
     * Fills the write buffer through a moving offset; `off` bytes of it are then the frame. Nothing is touched
     * when it would not fit.
     */
    method SendFrame(handle: u16, cid: u16, prefix: seq<byte>, data: seq<byte>) returns (off: nat)
      requires writeBuffer.Length == WRITE_BUFFER
      modifies writeBuffer
      ensures off <= writeBuffer.Length
      ensures off == 0 <==> Frame(handle, cid, prefix, data).None?
      ensures off > 0 ==> Some(writeBuffer[..off]) == Frame(handle, cid, prefix, data)
      ensures off == 0 ==> writeBuffer[..] == old(writeBuffer[..])
    {
      var payloadLen := |prefix| + |data|;
      if 1 + ACL_HDR + L2CAP_HDR + payloadLen > writeBuffer.Length {
        return 0;
      }
      off := 0;
      writeBuffer[off] := ACLDATA_PKT;
      off := off + 1;
      var aclHeader := Le16(AclHeaderHandle(handle, START_FLUSHABLE)) + Le16(ToU16(L2CAP_HDR + payloadLen));
      CopyInto(writeBuffer, off, aclHeader);
      off := off + ACL_HDR;
      assert writeBuffer[..off] == [ACLDATA_PKT] + aclHeader;
      var header := Le16(ToU16(payloadLen)) + Le16(cid);
      CopyInto(writeBuffer, off, header);
      off := off + L2CAP_HDR;
      if |prefix| > 0 {
        CopyInto(writeBuffer, off, prefix);
        off := off + |prefix|;
      }
      assert writeBuffer[..off] == [ACLDATA_PKT] + aclHeader + header + prefix;
      CopyInto(writeBuffer, off, data);
      off := off + |data|;
      FrameInParts(handle, cid, prefix, data);
    }
  }
}
