/** Input reports as bytes (src/dualsense/Transforms.h) and the one-slot hold (src/bluetooth/HeldFrame.h). */
module Reports {
  import opened Bytes

  const REPORT_LEN := 1 + 78
  const BT_FLAGS_OFF := 2
  const BT_BODY_OFF := 3
  const HIDP_DATA_INPUT: byte := 0xa1
  const REPORT_INPUT_BT_BASIC: byte := 0x01
  const REPORT_CALIBRATION: byte := 0x05
  const REPORT_FIRMWARE: byte := 0x20

  /** Bit 0 of the flags byte: the frame carries controller state. */
  predicate CarriesControllerState(report: seq<byte>) {
    |report| == REPORT_LEN && report[BT_FLAGS_OFF] % 2 == 1
  }

  /** A frame of the pad's opaque stream; anything that is not of report size is left alone. */
  predicate Opaque(report: seq<byte>) {
    |report| == REPORT_LEN && !CarriesControllerState(report)
  }

  /** Long enough for the cut-down image to be built from it; the source reads these bytes unchecked. */
  predicate HasBody(report: seq<byte>) { |report| >= BT_BODY_OFF + 10 }

  function CutDown(report: seq<byte>): seq<byte>
    requires HasBody(report)
  {
    var b := report[BT_BODY_OFF..];
    [REPORT_INPUT_BT_BASIC, b[0], b[1], b[2], b[3], b[7], b[8], b[9] % 4 + 4 * (b[6] % 64), b[4], b[5]]
  }

  // What the two layouts say, field by field.
  datatype Controls = Controls(
    leftX: byte, leftY: byte, rightX: byte, rightY: byte, l2: byte, r2: byte,
    faceAndHat: byte, shoulders: byte, ps: bool, touchpad: bool, counter: nat)

  /** The full report: sticks 0-3, triggers 4-5, counter 6, buttons 7-9 of the body. */
  function ReadFull(report: seq<byte>): Controls
    requires HasBody(report)
  {
    var b := report[BT_BODY_OFF..];
    Controls(b[0], b[1], b[2], b[3], b[4], b[5], b[7], b[8], b[9] % 2 == 1, b[9] / 2 % 2 == 1, b[6])
  }

  /** The basic report: [id][x][y][rx][ry][buttons0][buttons1][buttons2][z][rz], the counter above two button bits. */
  function ReadBasic(r: seq<byte>): Controls
    requires |r| == 10
  {
    Controls(r[1], r[2], r[3], r[4], r[8], r[9], r[5], r[6], r[7] % 2 == 1, r[7] / 2 % 2 == 1, r[7] / 4)
  }

  /** A host reading the cut-down report finds the same controls; of the counter, its low six bits. */
  lemma CutDownKeepsControls(report: seq<byte>)
    requires HasBody(report)
    ensures var full := ReadFull(report);
            && |CutDown(report)| == 10
            && CutDown(report)[0] == REPORT_INPUT_BT_BASIC
            && ReadBasic(CutDown(report)) == full.(counter := full.counter % 64)
  {
    var b := report[BT_BODY_OFF..];
    var packed := CutDown(report)[7];
    assert packed == b[9] % 4 + 4 * (b[6] % 64);
    assert packed % 4 == b[9] % 4 && packed / 4 == b[6] % 64;
    assert packed % 2 == packed % 4 % 2 && b[9] % 2 == b[9] % 4 % 2;
    assert packed / 2 % 2 == packed % 4 / 2 && b[9] / 2 % 2 == b[9] % 4 / 2;
  }

  class HeldFrame {
    const buf: array<byte>
    var len: nat

    ghost predicate Valid()
      reads this
    {
      buf.Length == REPORT_LEN && len <= buf.Length
    }

    function View(): seq<byte>
      requires Valid()
      reads this, buf
    {
      buf[..len]
    }

    constructor ()
      ensures Valid() && View() == [] && fresh(buf)
    {
      buf := new byte[REPORT_LEN](_ => 0);
      len := 0;
    }

    /** The newest report replaces the held one; one that does not fit leaves nothing held at all. */
    method Store(r: seq<byte>)
      requires Valid()
      modifies this, buf
      ensures Valid() && View() == if |r| <= REPORT_LEN then r else []
    {
      if |r| > buf.Length {
        len := 0;
        return;
      }
      CopyInto(buf, 0, r);
      len := |r|;
      assert buf[..0] == [];
    }

    method Clear()
      requires Valid()
      modifies this
      ensures Valid() && View() == []
    {
      len := 0;
    }
  }
}
