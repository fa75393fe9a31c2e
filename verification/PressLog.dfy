/**
 * The log a viewer writes from the feed's events (note_event in src/input/InputView.cpp).
 *
 * The viewer works on 32-bit masks; the reasoning is about which of the nineteen buttons are held, so a mask
 * is read as the set of the places in the table of buttons whose bit it has.
 */
module PressLog {
  import opened InputFeed

  /** The bit of each entry of the table, in log order: face buttons, d-pad, shoulders, the small ones. */
  function Look(i: nat): nat
    requires i < BUTTON_COUNT
  {
    if i < 4 then 7 - i
    else if i < 8 then i - 4
    else if i < 12 then i
    else if i < 14 then i + 2
    else if i < 16 then i - 2
    else i
  }

  /** Where in the table a bit is. */
  function Place(bit: nat): nat {
    if bit < 4 then bit + 4
    else if bit < 8 then 7 - bit
    else if bit < 12 then bit
    else if bit < 14 then bit + 2
    else if bit < 16 then bit - 2
    else bit
  }

  /**
   * The order of the log: triangle, circle, cross, square; up, right, down, left; then the shoulders and the
   * small ones.
   */
  lemma TableOrder()
    ensures seq(19, i requires 0 <= i < 19 => Look(i))
         == [7, 6, 5, 4, 0, 1, 2, 3, 8, 9, 10, 11, 14, 15, 12, 13, 16, 17, 18]
  {
  }

  /** Every button is in the table, and once. */
  lemma TableIsComplete(bit: nat, i: nat)
    requires bit < BUTTON_COUNT && i < BUTTON_COUNT
    ensures Place(bit) < BUTTON_COUNT && Look(Place(bit)) == bit && Place(Look(i)) == i
  {
  }

  function Bit(mask: Mask, k: nat): bool
    decreases k
  {
    if k == 0 then mask % 2 == 1 else Bit(mask / 2, k - 1)
  }

  function Pow2(n: nat): nat { if n == 0 then 1 else 2 * Pow2(n - 1) }

  lemma {:induction false} BitsDetermine(a: Mask, b: Mask, n: nat)
    requires a < Pow2(n) && b < Pow2(n) && forall k: nat :: k < n ==> Bit(a, k) == Bit(b, k)
    ensures a == b
    decreases n
  {
    if n > 0 {
      assert Bit(a, 0) == Bit(b, 0);
      forall k: nat | k < n - 1
        ensures Bit(a / 2, k) == Bit(b / 2, k)
      {
        assert Bit(a, k + 1) == Bit(b, k + 1);
      }
      BitsDetermine(a / 2, b / 2, n - 1);
    }
  }

  /** The places in the table of the buttons a mask holds. */
  function Held(mask: Mask): set<nat> {
    set i: nat | i < BUTTON_COUNT && Bit(mask, Look(i))
  }

  /** The table misses no button: nineteen-bit masks that hold the same places are the same. */
  lemma HeldDeterminesMask(a: Mask, b: Mask)
    requires a < Pow2(BUTTON_COUNT) && b < Pow2(BUTTON_COUNT) && Held(a) == Held(b)
    ensures a == b
  {
    forall k: nat | k < BUTTON_COUNT
      ensures Bit(a, k) == Bit(b, k)
    {
      TableIsComplete(k, 0);
      assert Place(k) in Held(a) <==> Bit(a, Look(Place(k)));
      assert Place(k) in Held(b) <==> Bit(b, Look(Place(k)));
    }
    BitsDetermine(a, b, BUTTON_COUNT);
  }

  // ------------------------------------------------------------------- the lines

  /** A log line names a button by its position in the table. */
  datatype Line = Down(button: nat) | Up(button: nat)

  /** What a reader of the log does with its lines. */
  function Replay(held: set<nat>, lines: seq<Line>): set<nat>
    decreases lines
  {
    if lines == [] then held
    else Replay(if lines[0].Down? then held + {lines[0].button} else held - {lines[0].button}, lines[1..])
  }

  function LineFor(before: set<nat>, after: set<nat>, i: nat): seq<Line> {
    if i in after && i !in before then [Down(i)] else if i !in after && i in before then [Up(i)] else []
  }

  /** The lines one event gives for the first n buttons of the table. */
  function LinesUpTo(before: set<nat>, after: set<nat>, n: nat): seq<Line> {
    if n == 0 then [] else LinesUpTo(before, after, n - 1) + LineFor(before, after, n - 1)
  }

  lemma {:induction false} ReplayConcat(held: set<nat>, a: seq<Line>, b: seq<Line>)
    ensures Replay(held, a + b) == Replay(Replay(held, a), b)
    decreases a
  {
    if a == [] {
      assert a + b == b;
    } else {
      assert (a + b)[1..] == a[1..] + b;
      ReplayConcat(if a[0].Down? then held + {a[0].button} else held - {a[0].button}, a[1..], b);
    }
  }

  /** After the lines for the first n buttons those are as they are afterwards, the rest as before. */
  lemma {:induction false} ReplayUpTo(before: set<nat>, after: set<nat>, n: nat)
    ensures forall i: nat ::
              i in Replay(before, LinesUpTo(before, after, n)) <==> if i < n then i in after else i in before
  {
    if n > 0 {
      ReplayUpTo(before, after, n - 1);
      var line := LineFor(before, after, n - 1);
      ReplayConcat(before, LinesUpTo(before, after, n - 1), line);
      assert line != [] ==> line[1..] == [];
    }
  }

  /** One line for a button that changed and none for one that did not. */
  lemma {:induction false} OneLinePerChange(before: set<nat>, after: set<nat>, n: nat, l: Line)
    ensures l in LinesUpTo(before, after, n) <==>
            l.button < n && if l.Down? then l.button in after && l.button !in before
                            else l.button !in after && l.button in before
  {
    if n > 0 {
      OneLinePerChange(before, after, n - 1, l);
      var front, line := LinesUpTo(before, after, n - 1), LineFor(before, after, n - 1);
      assert l in front + line <==> l in front || l in line;
    }
  }

  predicate InTableOrder(lines: seq<Line>, n: nat) {
    && (forall j :: 0 <= j < |lines| ==> lines[j].button < n)
    && (forall j, k :: 0 <= j < k < |lines| ==> lines[j].button < lines[k].button)
  }

  lemma OrderExtends(lines: seq<Line>, l: Line)
    requires InTableOrder(lines, l.button)
    ensures InTableOrder(lines, l.button + 1) && InTableOrder(lines + [l], l.button + 1)
  {
  }

  /** In table order, so no button is named twice. */
  lemma {:induction false} LinesInTableOrder(before: set<nat>, after: set<nat>, n: nat)
    ensures InTableOrder(LinesUpTo(before, after, n), n)
  {
    if n > 0 {
      LinesInTableOrder(before, after, n - 1);
      var front, line := LinesUpTo(before, after, n - 1), LineFor(before, after, n - 1);
      OrderExtends(front, if line == [] then Down(n - 1) else line[0]);
      assert front + line == if line == [] then front else front + [line[0]];
    }
  }

  // --------------------------------------------------------------- runs of events

  ghost function Lines(before: Mask, after: Mask): seq<Line> { LinesUpTo(Held(before), Held(after), BUTTON_COUNT) }

  /** Everything logged for a run of events, whatever came between them and was lost. */
  ghost function LogOf(start: Mask, events: seq<Event>): seq<Line> {
    if events == [] then []
    else
      var front := events[..|events| - 1];
      LogOf(start, front) + Lines(MaskAfter(start, front), events[|events| - 1].buttons)
  }

  function MaskAfter(start: Mask, events: seq<Event>): Mask {
    if events == [] then start else events[|events| - 1].buttons
  }

  lemma LinesReplay(before: Mask, after: Mask)
    ensures Replay(Held(before), Lines(before, after)) == Held(after)
  {
    ReplayUpTo(Held(before), Held(after), BUTTON_COUNT);
    assert forall i: nat :: i in Held(before) ==> i < BUTTON_COUNT;
    assert forall i: nat :: i in Held(after) ==> i < BUTTON_COUNT;
  }

  /**
   * Whatever subsequence of the events reaches the viewer, replaying its log from the starting mask gives
   * exactly what the last event holds - so after a loss the very next event puts the log right again.
   */
  lemma {:induction false} LogReplaysToTheTruth(start: Mask, events: seq<Event>)
    ensures Replay(Held(start), LogOf(start, events)) == Held(MaskAfter(start, events))
  {
    if events != [] {
      var front := events[..|events| - 1];
      LogReplaysToTheTruth(start, front);
      LinesReplay(MaskAfter(start, front), events[|events| - 1].buttons);
      ReplayConcat(Held(start), LogOf(start, front), Lines(MaskAfter(start, front), events[|events| - 1].buttons));
    }
  }

  // ------------------------------------------------------------- what a mask means

  /** The high part of a sum of two fields that do not overlap is the second field, the low part the first. */
  lemma {:induction false} BitsOfSum(low: nat, high: nat, n: nat, k: nat)
    requires low < Pow2(n)
    ensures Bit(low + Pow2(n) * high, k) == if k < n then Bit(low, k) else Bit(high, k - n)
  {
    if n > 0 {
      var m := low + Pow2(n) * high;
      assert Pow2(n) * high == 2 * (Pow2(n - 1) * high);
      assert m % 2 == low % 2 && m / 2 == low / 2 + Pow2(n - 1) * high;
      if k > 0 {
        BitsOfSum(low / 2, high, n - 1, k - 1);
      }
    }
  }

  /** Whether the d-pad presses arrow k (up, right, down, left): its own direction and the two beside it. */
  predicate Arrow(direction: nat, k: nat)
    requires k < 4
  {
    direction < 8 && (direction + 9 - 2 * k) % 8 <= 2
  }

  lemma HatBits(dpad: nat, k: nat)
    requires dpad < 0x10 && k < 4
    ensures Bit(Hat(dpad), k) <==> Arrow(dpad, k)
  {
    assert Bit(Hat(dpad), 1) == (Hat(dpad) / 2 % 2 == 1);
    assert Bit(Hat(dpad), 2) == Bit(Hat(dpad) / 2, 1) == (Hat(dpad) / 2 / 2 % 2 == 1);
    assert Bit(Hat(dpad), 3) == Bit(Hat(dpad) / 2, 2) == Bit(Hat(dpad) / 2 / 2, 1) == (Hat(dpad) / 2 / 2 / 2 % 2 == 1);
  }

  lemma LowByteIsBitwise(b: nat, k: nat)
    requires b < 0x100 && k < 8
    ensures Bit(Hat(b % 0x10) + 0x10 * (b / 0x10), k) <==> if k < 4 then Arrow(b % 0x10, k) else Bit(b, k)
  {
    assert Pow2(4) == 0x10;
    BitsOfSum(Hat(b % 0x10), b / 0x10, 4, k);
    if k < 4 {
      HatBits(b % 0x10, k);
    } else {
      BitsOfSum(b % 0x10, b / 0x10, 4, k);
    }
  }

  /** pack_buttons bit by bit: the d-pad unfolded into four arrows, then the report's own button bits in place. */
  lemma MaskIsBitwise(body: Body, k: nat)
    requires k < BUTTON_COUNT
    ensures Bit(PackButtons(body), k) <==>
            if k < 4 then Arrow(body[7] % 0x10, k)
            else if k < 8 then Bit(body[7], k)
            else if k < 16 then Bit(body[8], k - 8)
            else Bit(body[9], k - 16)
  {
    assert Pow2(4) == 0x10 && Pow2(8) == 0x100 && Pow2(3) == 8;
    var hat, face, shoulders, system := Hat(body[7] % 0x10), body[7] as int / 0x10, body[8] as int, body[9] as int % 8;
    var upper := shoulders + 0x100 * system;
    assert PackButtons(body) == (hat + 0x10 * face) + 0x100 * upper;
    BitsOfSum(hat + 0x10 * face, upper, 8, k);
    if k < 8 {
      LowByteIsBitwise(body[7], k);
    } else {
      BitsOfSum(shoulders, system, 8, k - 8);
      if k >= 16 {
        BitsOfSum(system, body[9] / 8, 3, k - 16);
      }
    }
  }

  lemma PackFits(body: Body)
    ensures PackButtons(body) < Pow2(BUTTON_COUNT)
  {
    assert Pow2(8) == 0x100;
    assert Pow2(16) == 0x1_0000;
    assert Pow2(BUTTON_COUNT) == 0x8_0000;
  }

  /** The masks the writer puts into events are ones the log can tell apart. */
  lemma LogTellsReportsApart(a: Body, b: Body)
    ensures Held(PackButtons(a)) == Held(PackButtons(b)) <==> PackButtons(a) == PackButtons(b)
  {
    PackFits(a);
    PackFits(b);
    if Held(PackButtons(a)) == Held(PackButtons(b)) {
      HeldDeterminesMask(PackButtons(a), PackButtons(b));
    }
  }

  // ------------------------------------------------------- from the page to the log

  function EventsOf(ds: seq<Delivery>): seq<Event> {
    seq(|ds|, i requires 0 <= i < |ds| => ds[i].event)
  }

  /** Nothing is left to drain or half written, and the last event drained was read before its slot was reused. */
  ghost predicate CaughtUp(p: Page) {
    && p.drainer.Waiting? && p.cursor == p.head && !p.writer.Stamping?
    && (p.past.deliveries != [] ==> p.past.deliveries[|p.past.deliveries| - 1].intact)
  }

  lemma LastDeliveryIsLastPress(p: Page)
    requires |p.past.log| == p.head && DrainInv(p) && PressInv(p) && CaughtUp(p)
    ensures MaskAfter(0, EventsOf(p.past.deliveries)) == Before(p.past.bodies)
  {
    var events, last := EventsOf(p.past.deliveries), p.head - 1;
    ChangesAreStutterFree(p.past.bodies);
    assert Masks(p.past.log) == Changes(p.past.bodies);
    if p.head > 0 {
      assert events[|events| - 1] == p.past.log[last];
      assert Masks(p.past.log)[last] == p.past.log[last].buttons;
    }
  }

  /**
   * In every interleaving: a viewer that has caught up, and read its last event before the writer came round
   * to that slot again, has a log that replays to exactly what the pad's latest report holds - whatever it
   * lost or was lapped on before.
   */
  lemma LogOfACaughtUpViewerIsRight(start: Page, actions: seq<Action>)
    requires PageInv(start) && IsRun(start, actions)
    requires CaughtUp(Run(start, actions))
    ensures var p := Run(start, actions);
            Replay(Held(0), LogOf(0, EventsOf(p.past.deliveries))) == Held(Before(p.past.bodies))
  {
    RunKeepsInv(start, actions);
    var p := Run(start, actions);
    LastDeliveryIsLastPress(p);
    LogReplaysToTheTruth(0, EventsOf(p.past.deliveries));
  }

  // ----------------------------------------------------- the same thing, in place

  const RECENT := 64

  predicate WentDown(before: set<nat>, after: set<nat>, i: nat) { i in after && i !in before }

  /** Those of the first n buttons of the table that an event presses. */
  function PressesUpTo(before: set<nat>, after: set<nat>, n: nat): seq<nat> {
    if n == 0 then []
    else PressesUpTo(before, after, n - 1) + if WentDown(before, after, n - 1) then [n - 1] else []
  }

  ghost function Presses(before: Mask, after: Mask): seq<nat> { PressesUpTo(Held(before), Held(after), BUTTON_COUNT) }

  function Newest(s: seq<nat>): seq<nat> { if |s| <= RECENT then s else s[|s| - RECENT..] }

  /** One more press on the row; a full row loses its oldest. */
  function Pushed(row: seq<nat>, button: nat): seq<nat> {
    if |row| < RECENT then row + [button] else (row + [button])[1..]
  }

  /** The row after the first n entries of the table. */
  function RowUpTo(row: seq<nat>, before: set<nat>, after: set<nat>, n: nat): seq<nat> {
    if n == 0 then row
    else
      var rest := RowUpTo(row, before, after, n - 1);
      if WentDown(before, after, n - 1) then Pushed(rest, n - 1) else rest
  }

  /** A row after some presses, one at a time. */
  function PushAll(row: seq<nat>, presses: seq<nat>): seq<nat> {
    if presses == [] then row else Pushed(PushAll(row, presses[..|presses| - 1]), presses[|presses| - 1])
  }

  lemma PushAllOneMore(row: seq<nat>, presses: seq<nat>, button: nat)
    ensures PushAll(row, presses + [button]) == Pushed(PushAll(row, presses), button)
  {
    assert (presses + [button])[..|presses|] == presses;
  }

  lemma {:induction false} TableIsPushed(row: seq<nat>, before: set<nat>, after: set<nat>, n: nat)
    ensures RowUpTo(row, before, after, n) == PushAll(row, PressesUpTo(before, after, n))
  {
    if n > 0 {
      var presses := PressesUpTo(before, after, n - 1);
      TableIsPushed(row, before, after, n - 1);
      PushAllOneMore(row, presses, n - 1);
      assert presses + [] == presses;
    }
  }

  lemma PushedIsTheNewest(presses: seq<nat>, button: nat)
    ensures Pushed(Newest(presses), button) == Newest(presses + [button])
  {
  }

  /** Dropping the oldest one at a time leaves the newest 64 of all presses. */
  lemma {:induction false} RowIsTheNewest(row: seq<nat>, presses: seq<nat>)
    requires |row| <= RECENT
    ensures PushAll(row, presses) == Newest(row + presses)
  {
    if presses == [] {
      assert row + presses == row;
    } else {
      var front, last := presses[..|presses| - 1], presses[|presses| - 1];
      calc {
        PushAll(row, presses);
        Pushed(PushAll(row, front), last);
        { RowIsTheNewest(row, front); }
        Pushed(Newest(row + front), last);
        { PushedIsTheNewest(row + front, last); }
        Newest(row + front + [last]);
        { assert row + front + [last] == row + presses; }
        Newest(row + presses);
      }
    }
  }

  class Panel {
    var held: Mask
    var recent: seq<nat>
    var lines: seq<Line>

    constructor (held: Mask)
      ensures this.held == held && recent == [] && lines == []
    {
      this.held, recent, lines := held, [], [];
    }

    /**
     * Every change goes to the log if there is one, and presses to the row of recent ones, which keeps the
     * newest 64.
     */
    method NoteEvent(e: Event, logging: bool)
      requires |recent| <= RECENT
      modifies this
      ensures held == e.buttons
      ensures lines == old(lines) + if logging then Lines(old(held), e.buttons) else []
      ensures recent == Newest(old(recent) + Presses(old(held), e.buttons))
    {
      TableIsPushed(recent, Held(held), Held(e.buttons), BUTTON_COUNT);
      RowIsTheNewest(recent, Presses(held, e.buttons));
      WalkTable(e.buttons, logging, BUTTON_COUNT);
      held := e.buttons;
    }

    /** The first n entries of the table, in order. */
    method WalkTable(buttons: Mask, logging: bool, n: nat)
      requires n <= BUTTON_COUNT
      modifies this`recent, this`lines
      ensures lines == old(lines) + if logging then LinesUpTo(Held(held), Held(buttons), n) else []
      ensures recent == RowUpTo(old(recent), Held(held), Held(buttons), n)
    {
      ghost var before, after := Held(held), Held(buttons);
      for i := 0 to n
        invariant lines == old(lines) + if logging then LinesUpTo(before, after, i) else []
        invariant recent == RowUpTo(old(recent), before, after, i)
      {
        NoteButton(i, buttons, logging);
      }
    }

    method NoteButton(i: nat, buttons: Mask, logging: bool)
      requires i < BUTTON_COUNT
      modifies this`recent, this`lines
      ensures lines == old(lines) + if logging then LineFor(Held(held), Held(buttons), i) else []
      ensures recent == if WentDown(Held(held), Held(buttons), i) then Pushed(old(recent), i) else old(recent)
    {
      assert (i in Held(held) <==> Bit(held, Look(i))) && (i in Held(buttons) <==> Bit(buttons, Look(i)));
      var down := Bit(buttons, Look(i)) && !Bit(held, Look(i));
      var up := !Bit(buttons, Look(i)) && Bit(held, Look(i));
      if down {
        recent := if |recent| < RECENT then recent + [i] else (recent + [i])[1..];
        if logging {
          lines := lines + [Down(i)];
        }
      }
      if up && logging {
        lines := lines + [Up(i)];
      }
    }
  }
}
