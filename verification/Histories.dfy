/**
 * What a handler knows and sends, read off the run (src/bluetooth/HciEvents.cpp, HciCommands.cpp, Handover.cpp).
 *
 * Each field of a handler is tied to the events that set and clear it, and each kind of command to the event it
 * answers, in the numbers of the wire.
 */
module Histories {
  import opened Bytes
  import opened Handlers
  import opened Calling
  import CommandQueue
  import Traces

  // ----------------------------------------------------------- the numbers of the wire

  lemma WireValues(addr: Addr, handle: u16)
    ensures Scan(SCAN_NONE) == CommandQueue.Command(0x03, 0x1a, [0x00])
    ensures Scan(SCAN_PAGE_ONLY) == CommandQueue.Command(0x03, 0x1a, [0x02])
    ensures Duty(DUTY_EAGER) == CommandQueue.Command(0x03, 0x1c, [0x00, 0x04, 0x20, 0x01])
    ensures Duty(DUTY_NORMAL) == CommandQueue.Command(0x03, 0x1c, [0x00, 0x08, 0x12, 0x00])
    ensures PageTimeout(TIMEOUT_SHORT) == CommandQueue.Command(0x03, 0x18, [0x00, 0x08])
    ensures PageTimeout(TIMEOUT_HANDOVER) == CommandQueue.Command(0x03, 0x18, [0x00, 0x10])
    ensures CreateConn(addr) == CommandQueue.Command(0x01, 0x05, addr + [0x18, 0xcc, 0x01, 0x00, 0x00, 0x00, 0x00])
    ensures AcceptConn(addr) == CommandQueue.Command(0x01, 0x09, addr + [0x01])
    ensures RejectConn(addr) == CommandQueue.Command(0x01, 0x0a, addr + [0x0f])
    ensures Authenticate(handle) == CommandQueue.Command(0x01, 0x11, [handle % 0x100, handle / 0x100])
    ensures Disconnect(handle) == CommandQueue.Command(0x01, 0x06, [handle % 0x100, handle / 0x100, 0x13])
  {
  }

  /** Pairing, event mask, authentication, eager scan, short page timeout, buffer size, link policy: in this order. */
  lemma StartUpOnTheWire()
    ensures START_UP == [
      CommandQueue.Command(0x03, 0x56, [0x01]),
      CommandQueue.Command(0x03, 0x01, [0xff, 0xff, 0xff, 0xff, 0xff, 0xff, 0xbf, 0x3d]),
      CommandQueue.Command(0x03, 0x20, [0x01]),
      CommandQueue.Command(0x03, 0x1c, [0x00, 0x04, 0x20, 0x01]),
      CommandQueue.Command(0x03, 0x18, [0x00, 0x08]),
      CommandQueue.Command(0x04, 0x05, []),
      CommandQueue.Command(0x02, 0x0f, [0x05, 0x00])]
  {
    WireValues(UNSET, 0);
    assert Le16(0x0005) == [0x05, 0x00];
  }

  lemma {:induction false} SweepIsInOrder(last: u16)
    ensures |Sweep(last)| == last
    ensures forall i: nat :: i < last ==> Sweep(last)[i] == Disconnect(i + 1)
  {
    if last > 0 {
      SweepIsInOrder(last - 1);
    }
  }

  lemma {:induction false} ZerosAreZero(n: nat)
    ensures |Zeros(n)| == n && forall i :: 0 <= i < n ==> Zeros(n)[i] == 0
  {
    if n > 0 {
      ZerosAreZero(n - 1);
    }
  }

  /**
   * The console side's name: the pad's address if it is to be borrowed, class, inquiry response - and the scan
   * only when it is not suppressed.
   */
  lemma IdentityOnTheWire(st: Status)
    ensures var addr := st.addrs.spoof;
            Identity(st) ==
              (if addr == [0, 0, 0, 0, 0, 0] then []
               else [CommandQueue.Command(0x3f, 0x01, addr), CommandQueue.Command(0x04, 0x09, [])])
              + [CommandQueue.Command(0x03, 0x24, [0x08, 0x25, 0x00]), INQUIRY_RESPONSE]
              + (if st.scanSuppressed then [] else [CommandQueue.Command(0x03, 0x1a, [0x02])])
    ensures INQUIRY_RESPONSE.ogf == 0x03 && INQUIRY_RESPONSE.ocf == 0x52 && |INQUIRY_RESPONSE.param| == 241
  {
    ZerosAreZero(192);
  }

  // ------------------------------------------------------------------ events, by name

  /** A link comes up. */
  predicate Succeeds(e: SysEvent, side: Side) { e.Complete? && e.side == side && e.status == 0 }

  /** The relayed link goes. */
  predicate Drops(st: Status, e: SysEvent) { e.Disconnected? && e.side == st.side && e.handle == st.link.connection }

  /** A link comes up next to another. */
  predicate Moves(st: Status, e: SysEvent) {
    Succeeds(e, st.side) && st.link.connection != 0 && e.handle != st.link.connection
  }

  /** A page for the peer misses. */
  predicate Misses(st: Status, e: SysEvent) {
    e.Complete? && e.side == st.side && e.status != 0 && st.addrs.bt != UNSET && e.addr == st.addrs.bt
  }

  /** The console's handler begins to call. */
  predicate CallsFrom(st: Status, e: SysEvent) { e.HandOver? && st.side.ToConsole? && st.link.connection == 0 }

  // ----------------------------------------------------------- every field, every event

  /** What becomes of the links, in the terms above. */
  ghost predicate LinkIs(me: Status, e: SysEvent, t: Link) {
    var l := me.link;
    && t.connection == (if Succeeds(e, me.side) then e.handle else if Drops(me, e) then 0 else l.connection)
    && t.open == (if Succeeds(e, me.side) then l.open + {e.handle}
                  else if e.Disconnected? then l.open - {e.handle} else l.open)
    && t.onPlay == (if Moves(me, e) then true
                    else if Drops(me, e) && me.side.ToConsole? then false else l.onPlay)
    && t.outputSeen == (if e.Output? then true else if Moves(me, e) || Drops(me, e) then false else l.outputSeen)
    && t.peer == (if Succeeds(e, me.side) then e.addr else l.peer)
    && t.incoming == (if Succeeds(e, me.side) then me.acceptedIncoming
                      else if Drops(me, e) then false else l.incoming)
    && t.sniffing == (if e.ModeChanged? && e.status == 0 && e.handle == l.connection then e.mode == 2
                      else if Moves(me, e) || Drops(me, e) then false else l.sniffing)
  }

  lemma CompleteLink(me: Status, e: SysEvent)
    requires e.Complete? && e.side == me.side
    ensures LinkIs(me, e, Own(me, e).st.link)
  {
    if e.status != 0 {
      assert Own(me, e).st.link == me.link;
    }
  }

  lemma OwnLink(me: Status, e: SysEvent)
    requires SideOf(e) == me.side
    ensures LinkIs(me, e, Own(me, e).st.link)
  {
    if e.Complete? {
      CompleteLink(me, e);
    }
  }

  lemma OwnAddresses(me: Status, e: SysEvent)
    requires SideOf(e) == me.side
    ensures Own(me, e).st.addrs == if CallsFrom(me, e) then me.addrs.(bt := e.addr, console := e.addr) else me.addrs
  {
    if e.Complete? && e.status != 0 {
      PageMissedFrame(me.(acceptedIncoming := false), e.status, e.addr, e.now);
      assert !me.acceptedIncoming ==> me.(acceptedIncoming := false) == me;
    }
  }

  /** The window of calling without a pause: thirty seconds. */
  predicate WindowEnds(st: Status, e: SysEvent) {
    || Succeeds(e, st.side)
    || (Misses(st, e) && st.side.ToConsole? && st.handoverSince.Some? && e.now - st.handoverSince.value >= 30_000)
  }

  lemma OwnWindow(me: Status, e: SysEvent)
    requires SideOf(e) == me.side
    ensures Own(me, e).st.handoverSince ==
            if CallsFrom(me, e) then Some(e.now) else if WindowEnds(me, e) then None else me.handoverSince
  {
  }

  /** The pause before the n-th page in a row that missed is repeated. */
  function Pause(n: nat): int { if n <= 2 then 3000 else if n <= 5 then 10_000 else 20_000 }

  /** How long an event asks the reconnect timer to wait, if it asks at all. */
  function Delay(me: Status, e: SysEvent): Option<int> {
    if Drops(me, e) then Some(if me.side.ToConsole? && e.reason == 0x13 then 20_000 else 3000)
    else if Misses(me, e) && me.side.ToConsole? then
      Some(if me.handoverSince.Some? && e.now - me.handoverSince.value < 30_000 && e.status == 0x04 then 0
           else Pause(me.retry.failures + 1))
    else if Misses(me, e) && (e.status == 0x04 || e.status == 0x0f) then Some(3000)
    else if e.PageRefused? && e.status == 0x0b && me.link.connection == 0 && !me.retry.swept then Some(3000)
    else None
  }

  /** What becomes of the retries, in the terms above. */
  ghost predicate RetryIs(me: Status, e: SysEvent, t: Retry) {
    && t.failures == (if Succeeds(e, me.side) then 0
                      else if Misses(me, e) && me.side.ToConsole? then me.retry.failures + 1 else me.retry.failures)
    && t.due == (if e.TimerFires? then None
                 else if me.retry.due.None? && Delay(me, e).Some? then Some(e.now + Delay(me, e).value)
                 else me.retry.due)
    && (t.swept <==> me.retry.swept || (e.PageRefused? && e.status == 0x0b && me.link.connection == 0))
  }

  lemma CompleteRetry(me: Status, e: SysEvent)
    requires e.Complete? && e.side == me.side
    ensures RetryIs(me, e, Own(me, e).st.retry)
  {
    if e.status == 0 {
      assert Own(me, e).st.retry == me.retry.(failures := 0);
    } else {
      assert Own(me, e).st.retry == PageMissed(me, e.status, e.addr, e.now).st.retry;
    }
  }

  lemma OwnRetry(me: Status, e: SysEvent)
    requires SideOf(e) == me.side
    ensures RetryIs(me, e, Own(me, e).st.retry)
  {
    if e.Complete? {
      CompleteRetry(me, e);
    }
  }

  // ----------------------------------------------------------------------- over runs

  function ConnectsAs(side: Side, h: u16): Happening {
    (s: System, e: SysEvent) => Succeeds(e, side) && e.handle == h
  }

  function ConnectsOrDrops(side: Side): Happening {
    (s: System, e: SysEvent) => Succeeds(e, side) || Drops(At(s, side).st, e)
  }

  function Closes(side: Side, h: u16): Happening {
    (s: System, e: SysEvent) => e.Disconnected? && e.side == side && e.handle == h
  }

  predicate MovesOver(s: System, e: SysEvent) { Moves(s.console.st, e) }

  predicate DropsConsole(s: System, e: SysEvent) { Drops(s.console.st, e) }

  predicate Outputs(s: System, e: SysEvent) { e.Output? }

  predicate StartsOver(s: System, e: SysEvent) { Moves(s.console.st, e) || Drops(s.console.st, e) }

  /** The pad's side reads a Connection Complete that it does not take for a failed call. */
  predicate Lifts(s: System, e: SysEvent) {
    e.Complete? && e.side.ToPad? && !(e.status != 0 && s.pad.st.acceptedIncoming)
  }

  function CallsAt(t: int): Happening { (s: System, e: SysEvent) => CallsFrom(s.console.st, e) && e.now == t }

  predicate CallsOrEnds(s: System, e: SysEvent) { CallsFrom(s.console.st, e) || WindowEnds(s.console.st, e) }

  function CallsTo(addr: Addr): Happening { (s: System, e: SysEvent) => CallsFrom(s.console.st, e) && e.addr == addr }

  predicate AnyCall(s: System, e: SysEvent) { CallsFrom(s.console.st, e) }

  /** What an event does to the handler it is not for. */
  lemma OthersKnow(me: Status, other: Status, e: SysEvent)
    ensures var t := Others(me, other, e).st;
            && t == other.(scanSuppressed := t.scanSuppressed, past := t.past)
            && t.scanSuppressed ==
               (if e.Complete? && me.side.ToPad? && !(e.status != 0 && me.acceptedIncoming) then false
                else if me.side.ToPad? && (e.Starts? || (e.TimerFires? && me.link.connection == 0))
                     && other.addrs.spoof != UNSET && me.addrs.bt == other.addrs.spoof then true
                else other.scanSuppressed)
  {
  }

  lemma OwnSuppression(me: Status, e: SysEvent)
    requires SideOf(e) == me.side
    ensures Own(me, e).st.scanSuppressed == me.scanSuppressed && Own(me, e).st.side == me.side
  {
    if e.Complete? && e.status != 0 {
      PageMissedFrame(me.(acceptedIncoming := false), e.status, e.addr, e.now);
      assert !me.acceptedIncoming ==> me.(acceptedIncoming := false) == me;
    }
  }

  /** One event, seen from one side: its own, or the other's. */
  lemma StepKnows(s: System, e: SysEvent, side: Side)
    requires Sided(s)
    ensures Sided(Step(s, e))
    ensures var me, t := At(s, side).st, At(Step(s, e), side).st;
            if SideOf(e) == side then t == Own(me, e).st
            else t == me.(scanSuppressed := t.scanSuppressed, past := t.past)
    ensures Step(s, e).console.st.scanSuppressed <==> Silences(s, e) || (!Lifts(s, e) && s.console.st.scanSuppressed)
  {
    StepStatus(s, e);
    var me, other := At(s, SideOf(e)).st, Other(s, SideOf(e)).st;
    OthersKnow(me, other, e);
    OwnSuppression(me, e);
  }

  lemma LinkStep(s: System, e: SysEvent, side: Side, h: u16)
    requires Sided(s) && h != 0
    ensures var l, t := At(s, side).st.link, At(Step(s, e), side).st.link;
            && (t.connection == h <==> ConnectsAs(side, h)(s, e) || (!ConnectsOrDrops(side)(s, e) && l.connection == h))
            && (h in t.open <==> ConnectsAs(side, h)(s, e) || (!Closes(side, h)(s, e) && h in l.open))
  {
    StepKnows(s, e, side);
    if SideOf(e) == side {
      OwnLink(At(s, side).st, e);
    }
  }

  /**
   * In every run, on either side: the relayed link is the one that came up last and has not gone, and open are
   * those that came up and have not.
   */
  lemma {:induction false} LinksFollowTheRun(s: System, es: seq<SysEvent>, side: Side, h: u16)
    requires Begins(s) && h != 0
    ensures var l := At(Run(s, es), side).st.link;
            && (l.connection == h <==> Since(s, es, ConnectsAs(side, h), ConnectsOrDrops(side)))
            && (h in l.open <==> Since(s, es, ConnectsAs(side, h), Closes(side, h)))
  {
    if es != [] {
      var front, e := es[..|es| - 1], es[|es| - 1];
      LinksFollowTheRun(s, front, side, h);
      FlagsFollowTheRun(s, front);
      LinkStep(Run(s, front), e, side, h);
      Traces.SinceLast(Step, s, es, ConnectsAs(side, h), ConnectsOrDrops(side));
      Traces.SinceLast(Step, s, es, ConnectsAs(side, h), Closes(side, h));
    }
  }

  /**
   * In every run: the console is on its play link since a second link came up beside one, until that goes; and
   * its output has been seen since either.
   */
  lemma {:induction false} PlayLinkFollowsTheRun(s: System, es: seq<SysEvent>)
    requires Begins(s)
    ensures var l := Run(s, es).console.st.link;
            && (l.onPlay <==> Since(s, es, MovesOver, DropsConsole))
            && (l.outputSeen <==> Since(s, es, Outputs, StartsOver))
  {
    if es != [] {
      var front, e := es[..|es| - 1], es[|es| - 1];
      PlayLinkFollowsTheRun(s, front);
      FlagsFollowTheRun(s, front);
      var t := Run(s, front);
      StepKnows(t, e, ToConsole);
      if SideOf(e).ToConsole? {
        OwnLink(t.console.st, e);
      }
      Traces.SinceLast(Step, s, es, MovesOver, DropsConsole);
      Traces.SinceLast(Step, s, es, Outputs, StartsOver);
    }
  }

  /**
   * In every run the console's radio is suppressed from a page for the borrowed address to the end of an attempt
   * that is not taken for a call's.
   */
  lemma {:induction false} SuppressionFollowsTheRun(s: System, es: seq<SysEvent>)
    requires Begins(s)
    ensures Run(s, es).console.st.scanSuppressed <==> Since(s, es, Silences, Lifts)
  {
    if es != [] {
      var front, e := es[..|es| - 1], es[|es| - 1];
      SuppressionFollowsTheRun(s, front);
      FlagsFollowTheRun(s, front);
      StepKnows(Run(s, front), e, ToConsole);
      Traces.SinceLast(Step, s, es, Silences, Lifts);
    }
  }

  /**
   * In every run: the calling without a pause counts from the last handover's call, and lasts until a link comes
   * up or a page misses thirty seconds on; and whom the console's handler calls and accepts is whom the last
   * handover named.
   */
  lemma {:induction false} HandoverFollowsTheRun(s: System, es: seq<SysEvent>, t: int, addr: Addr)
    requires Begins(s)
    ensures var st := Run(s, es).console.st;
            && (st.handoverSince == Some(t) <==> Since(s, es, CallsAt(t), CallsOrEnds))
            && (Since(s, es, CallsTo(addr), AnyCall) ==> st.addrs.bt == addr && st.addrs.console == addr)
            && st.addrs.spoof == s.console.st.addrs.spoof
  {
    if es != [] {
      var front, e := es[..|es| - 1], es[|es| - 1];
      HandoverFollowsTheRun(s, front, t, addr);
      FlagsFollowTheRun(s, front);
      var u := Run(s, front);
      StepKnows(u, e, ToConsole);
      if SideOf(e).ToConsole? {
        OwnWindow(u.console.st, e);
        OwnAddresses(u.console.st, e);
      }
      Traces.SinceLast(Step, s, es, CallsAt(t), CallsOrEnds);
      Traces.SinceLast(Step, s, es, CallsTo(addr), AnyCall);
    }
  }

  // ------------------------------------------------------------------ what is answered

  function AcceptsOn(side: Side): Happening {
    (s: System, e: SysEvent) => e.Called? && e.side == side && Expects(At(s, side).st, e.addr)
  }

  function CompletesOn(side: Side): Happening { (s: System, e: SysEvent) => e.Complete? && e.side == side }

  lemma {:induction false} AcceptanceFollowsTheRun(s: System, es: seq<SysEvent>, side: Side)
    requires Begins(s)
    ensures At(Run(s, es), side).st.acceptedIncoming <==> Since(s, es, AcceptsOn(side), CompletesOn(side))
  {
    if es != [] {
      var front, e := es[..|es| - 1], es[|es| - 1];
      AcceptanceFollowsTheRun(s, front, side);
      FlagsFollowTheRun(s, front);
      var t := Run(s, front);
      StepKnows(t, e, side);
      if SideOf(e) == side {
        OwnFlags(At(t, side).st, e);
      }
      Traces.SinceLast(Step, s, es, AcceptsOn(side), CompletesOn(side));
    }
  }

  /** Five of the six bytes, and the address is set. */
  predicate SamePeer(peer: Addr, addr: Addr) {
    && peer != [0, 0, 0, 0, 0, 0]
    && peer[1] == addr[1] && peer[2] == addr[2] && peer[3] == addr[3] && peer[4] == addr[4] && peer[5] == addr[5]
  }

  /**
   * Every call is answered with one command: accepted from the peer of that side or its other radio, otherwise
   * refused as an unacceptable address.
   */
  lemma CallsAreAnswered(s: System, side: Side, addr: Addr, now: int)
    requires Sided(s)
    ensures var st := At(s, side).st;
            var peer := if side.ToPad? then st.addrs.bt else st.addrs.console;
            NewCommands(s, Called(side, addr, now), side) ==
            [if SamePeer(peer, addr) then CommandQueue.Command(0x01, 0x09, addr + [0x01])
             else CommandQueue.Command(0x01, 0x0a, addr + [0x0f])]
  {
    var st := At(s, side).st;
    var peer := if side.ToPad? then st.addrs.bt else st.addrs.console;
    assert addr[1..] == peer[1..] <==> forall i :: 1 <= i < 6 ==> addr[i] == peer[i] by {
      assert forall i :: 1 <= i < 6 ==> addr[1..][i - 1] == addr[i] && peer[1..][i - 1] == peer[i];
    }
  }

  lemma LinkCommands(st: Status, handle: u16, addr: Addr)
    ensures Authenticate(handle) in TakeLink(st, handle, addr).commands <==> !st.acceptedIncoming
  {
    var c := TakeLink(st, handle, addr);
    if !st.acceptedIncoming {
      assert c.commands[|c.commands| - 1] == Authenticate(handle);
    }
  }

  /**
   * In every run a link that comes up is authenticated by this side exactly when it has accepted no call since
   * the last Connection Complete.
   */
  lemma LinkIsAuthenticatedUnlessTheyCalled(s: System, es: seq<SysEvent>, side: Side, addr: Addr, handle: u16,
                                            closes: Attempt, now: int)
    requires Begins(s)
    ensures var e := Complete(side, 0, addr, handle, closes, now);
            CommandQueue.Command(0x01, 0x11, [handle % 0x100, handle / 0x100]) in NewCommands(Run(s, es), e, side)
            <==> !Since(s, es, AcceptsOn(side), CompletesOn(side))
  {
    FlagsFollowTheRun(s, es);
    AcceptanceFollowsTheRun(s, es, side);
    WireValues(addr, handle);
    LinkCommands(At(Run(s, es), side).st, handle, addr);
  }
}
