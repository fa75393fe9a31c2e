/**
 * The two handlers and the links they hold (src/bluetooth/HciEvents.cpp, HciCommands.cpp, Handover.cpp).
 *
 * One handler faces the pad, the other the console, each with an adapter and a command queue of its own; the
 * pad's handler reaches into the console's to silence it while it pages. An operation changes what a handler
 * knows and sends commands; what a radio has been told is read off the commands its queue let out, so every
 * claim about that goes through the queue.
 */
module Handlers {
  import opened Bytes
  import opened CommandQueue
  import Traces

  // ------------------------------------------------------------------- commands

  const OGF_LINK_CTL := 0x01
  const OGF_HOST_CTL := 0x03
  const OCF_WRITE_SCAN_ENABLE := 0x1a
  const OCF_WRITE_PAGE_ACTIVITY := 0x1c
  const OCF_WRITE_PAGE_TIMEOUT := 0x18

  const SCAN_NONE: seq<byte> := [0x00]
  const SCAN_PAGE_ONLY: seq<byte> := [0x02]
  const DUTY_EAGER: seq<byte> := Le16(0x0400) + Le16(0x0120)
  const DUTY_NORMAL: seq<byte> := Le16(0x0800) + Le16(0x0012)

  const TIMEOUT_SHORT: seq<byte> := Le16(0x0800)
  const TIMEOUT_HANDOVER: seq<byte> := Le16(0x1000)

  /** How long after the handover the console is called without a pause, in milliseconds. */
  const HANDOVER_PAGE_WINDOW := 30_000

  function Scan(mode: seq<byte>): Command { Command(OGF_HOST_CTL, OCF_WRITE_SCAN_ENABLE, mode) }
  function Duty(activity: seq<byte>): Command { Command(OGF_HOST_CTL, OCF_WRITE_PAGE_ACTIVITY, activity) }

  function PageTimeout(slots: seq<byte>): Command { Command(OGF_HOST_CTL, OCF_WRITE_PAGE_TIMEOUT, slots) }

  type Addr = a: seq<byte> | |a| == 6 witness [0, 0, 0, 0, 0, 0]
  const UNSET: Addr := [0, 0, 0, 0, 0, 0]

  /** Every data packet type (BlueZ's own mask). */
  const ACL_PTYPE_MASK: u16 := 0xcc18

  /** Behind the address: packet types, repetition and scan mode, clock offset, and no role switch. */
  function CreateConn(addr: Addr): Command {
    Command(OGF_LINK_CTL, 0x05, addr + Le16(ACL_PTYPE_MASK) + [0x01, 0x00] + Le16(0) + [0x00])
  }
  function Disconnect(handle: u16): Command { Command(OGF_LINK_CTL, 0x06, Le16(handle) + [REMOTE_USER]) }
  function AcceptConn(addr: Addr): Command { Command(OGF_LINK_CTL, 0x09, addr + [0x01]) }
  function RejectConn(addr: Addr): Command { Command(OGF_LINK_CTL, 0x0a, addr + [0x0f]) }
  function Authenticate(handle: u16): Command { Command(OGF_LINK_CTL, 0x11, Le16(handle)) }

  const SIMPLE_PAIRING := Command(OGF_HOST_CTL, 0x56, [0x01])
  const EVENT_MASK := Command(OGF_HOST_CTL, 0x01, [0xff, 0xff, 0xff, 0xff, 0xff, 0xff, 0xbf, 0x3d])
  const AUTHENTICATION := Command(OGF_HOST_CTL, 0x20, [0x01])
  const READ_BUFFER_SIZE := Command(0x04, 0x05, [])
  const READ_ADDRESS := Command(0x04, 0x09, [])
  const LINK_POLICY := Command(0x02, 0x0f, Le16(0x0005))
  const CLASS_OF_DEVICE := Command(OGF_HOST_CTL, 0x24, [0x08, 0x25, 0x00])

  /** The controller's class and its name, "DualSense Wireless Controller", for inquiries. */
  const EXTENDED_INQUIRY: seq<byte> :=
    [0x05, 0x03, 0x24, 0x11, 0x00, 0x12, 0x1e, 0x09, 0x44, 0x75, 0x61, 0x6c, 0x53, 0x65, 0x6e, 0x73,
     0x65, 0x20, 0x57, 0x69, 0x72, 0x65, 0x6c, 0x65, 0x73, 0x73, 0x20, 0x43, 0x6f, 0x6e, 0x74, 0x72,
     0x6f, 0x6c, 0x6c, 0x65, 0x72, 0x09, 0x10, 0x02, 0x00, 0x4c, 0x05, 0xe6, 0x0c, 0x00, 0x01, 0x00]

  /** No error correction, and zeros up to 240 bytes. */
  const INQUIRY_RESPONSE := Command(OGF_HOST_CTL, 0x52, [0x00] + EXTENDED_INQUIRY + Zeros(192))

  function Zeros(n: nat): seq<byte> { if n == 0 then [] else Zeros(n - 1) + [0] }

  // ---------------------------------------------------------------- the handlers

  datatype Side = ToPad | ToConsole

  /**
   * Whether start-up has run, whether something other than the end of the page has switched the scan back on
   * since it was suppressed, and whether the handover came before start-up.
   */
  datatype Past = Past(started: bool, overridden: bool, calledEarly: bool)

  /**
   * Pages that missed in a row, when the reconnect timer fires if it is running, and whether links of an
   * earlier run have been swept away.
   */
  datatype Retry = Retry(failures: nat, due: Option<int>, swept: bool)

  /** The peer to page, the address borrowed for this radio, and the console's. */
  datatype Addresses = Addresses(bt: Addr, spoof: Addr, console: Addr)

  /** The link that is relayed on, 0 when there is none, beside all that are open. */
  datatype Link = Link(connection: u16, open: set<u16>, incoming: bool, onPlay: bool, outputSeen: bool,
                       peer: Addr, sniffing: bool)

  /**
   * What a handler knows. `handoverSince` is when the console was first called after the handover, while that
   * still matters; `past` is history that the code does not keep.
   */
  datatype Status = Status(
    side: Side,
    addrs: Addresses,
    link: Link,
    acceptedIncoming: bool,
    scanSuppressed: bool,
    handoverSince: Option<int>,
    retry: Retry,
    past: Past)

  datatype Handler = Handler(st: Status, port: Port, accepts: Oracle)

  /** What an operation makes of a handler: what it knows afterwards, and the commands it sends, in order. */
  datatype Change = Change(st: Status, commands: seq<Command>)

  function Same(st: Status): Change { Change(st, []) }

  /** A port after a list of commands has been sent through it. */
  function Sending(p: Port, accepts: Oracle, cs: seq<Command>, now: int): Port
    decreases cs
  {
    if cs == [] then p else Sending(SendCmd(p, cs[0], accepts, now), accepts, cs[1..], now)
  }

  function Apply(h: Handler, c: Change, now: int): Handler {
    Handler(c.st, Sending(h.port, h.accepts, c.commands, now), h.accepts)
  }

  // -------------------------------------------------------------------- operations

  function Silenced(st: Status): Change {
    Change(st.(scanSuppressed := true, past := st.past.(overridden := false)), [Scan(SCAN_NONE)])
  }

  /** send_connection_request, on the handler that pages. */
  function Paging(addr: Addr): seq<Command> { if addr == UNSET then [] else [CreateConn(addr)] }

  /** And on the other one: the console's radio must not answer a page for the address it has borrowed. */
  function WhilePaging(side: Side, other: Status, addr: Addr): Change {
    if side.ToPad? && other.addrs.spoof != UNSET && addr == other.addrs.spoof then Silenced(other) else Same(other)
  }

  /** What every handler starts with. */
  const START_UP: seq<Command> :=
    [SIMPLE_PAIRING, EVENT_MASK, AUTHENTICATION, Duty(DUTY_EAGER), PageTimeout(TIMEOUT_SHORT),
     READ_BUFFER_SIZE, LINK_POLICY]

  /** Claiming the pad's address, if there is one to claim. */
  function Spoof(addr: Addr): seq<Command> {
    if addr != UNSET then [Command(0x3f, 0x01, addr), READ_ADDRESS] else []
  }

  /** apply_console_side_identity, which asks before it switches the scan on. */
  function Identity(st: Status): seq<Command> {
    var named := Spoof(st.addrs.spoof) + [CLASS_OF_DEVICE, INQUIRY_RESPONSE];
    if st.scanSuppressed then named else named + [Scan(SCAN_PAGE_ONLY)]
  }

  /** apply_side_settings and what follows it, behind the commands every handler starts with. */
  function SideSettings(st: Status): seq<Command> {
    match st.side
    case ToPad => [Scan(SCAN_PAGE_ONLY)] + Paging(st.addrs.bt)
    case ToConsole => Identity(st)
  }

  /** The part of handle() between the reset and the read loop. */
  function StartUp(st: Status): Change {
    Change(st.(past := st.past.(started := true)), START_UP + SideSettings(st))
  }

  /** A failure that the flag attributes to an incoming call. */
  predicate FailedIncoming(me: Status, status: byte) { status != 0 && me.acceptedIncoming }

  /**
   * What a Connection Complete does to the other handler: unless it is such a failure, the console radio may
   * answer again.
   */
  function EndSuppression(me: Status, other: Status, status: byte): Change {
    if !FailedIncoming(me, status) && me.side.ToPad? && other.scanSuppressed
    then Change(other.(scanSuppressed := false), [Scan(SCAN_PAGE_ONLY)])
    else Same(other)
  }

  /** A second link next to the first starts the channels over, on the play link. */
  function Moved(l: Link, handle: u16): Link {
    if l.connection == 0 || l.connection == handle then l
    else l.(onPlay := true, outputSeen := false, sniffing := false)
  }

  /** The fields a new link changes. */
  function Adopt(st: Status, handle: u16, addr: Addr): Status {
    var l := Moved(st.link, handle);
    st.(link := l.(connection := handle, open := l.open + {handle}, incoming := st.acceptedIncoming, peer := addr),
        acceptedIncoming := false, retry := st.retry.(failures := 0))
  }

  /** end_handover_paging. */
  function EndHandover(st: Status): Change {
    if st.handoverSince.None? then Same(st) else Change(st.(handoverSince := None), [PageTimeout(TIMEOUT_SHORT)])
  }

  /** A link that came up: the pad's radio is eased off, and a link we opened is ours to authenticate. */
  function TakeLink(st: Status, handle: u16, addr: Addr): Change {
    var c := EndHandover(Adopt(st, handle, addr));
    var eased := c.commands + if st.side.ToPad? then [Duty(DUTY_NORMAL)] else [];
    Change(c.st, eased + if c.st.link.incoming then [] else [Authenticate(handle)])
  }

  const PAGE_TIMEOUT: byte := 0x04
  const REJECTED_PERSONAL: byte := 0x0f
  const REMOTE_USER: byte := 0x13
  const CONNECTION_EXISTS: byte := 0x0b
  const LINK_MODE_SNIFF: byte := 0x02

  /** schedule_reconnect: one timer at a time. */
  function Schedule(r: Retry, delay: int, now: int): Retry { if r.due.Some? then r else r.(due := Some(now + delay)) }

  function BackOff(failures: nat): int { if failures < 3 then 3000 else if failures < 6 then 10_000 else 20_000 }

  /** The handover's window is over; or it is still open. */
  predicate WindowOver(st: Status, now: int) {
    st.handoverSince.Some? && now - st.handoverSince.value >= HANDOVER_PAGE_WINDOW
  }

  predicate WindowOpen(st: Status, now: int) { st.handoverSince.Some? && !WindowOver(st, now) }

  /** A page for the console that missed: again at once inside the handover's window, otherwise after a pause. */
  function ConsolePageMissed(st: Status, status: byte, now: int): Change {
    var n := st.retry.failures + 1;
    var delay := if WindowOpen(st, now) && status == PAGE_TIMEOUT then 0 else BackOff(n);
    var c := if WindowOver(st, now) then EndHandover(st) else Same(st);
    Change(c.st.(retry := Schedule(st.retry.(failures := n), delay, now)), c.commands)
  }

  /** handle_connection_failure: only pages of ours are retried, those for the pad only after two of the statuses. */
  function PageMissed(st: Status, status: byte, addr: Addr, now: int): Change {
    if st.addrs.bt == UNSET || addr != st.addrs.bt then Same(st)
    else if st.side.ToConsole? then ConsolePageMissed(st, status, now)
    else if status == PAGE_TIMEOUT || status == REJECTED_PERSONAL then
      Same(st.(retry := Schedule(st.retry, 3000, now)))
    else Same(st)
  }

  /** handle_connection_complete, on the handler that reads it. */
  function ConnectionComplete(me: Status, status: byte, addr: Addr, handle: u16, now: int): Change {
    var st := if FailedIncoming(me, status) then me.(acceptedIncoming := false) else me;
    if status != 0 then PageMissed(st, status, addr, now) else TakeLink(st, handle, addr)
  }

  /** handle_disconnect_complete. */
  function DisconnectComplete(me: Status, handle: u16, reason: byte, now: int): Change {
    var l := me.link.(open := me.link.open - {handle});
    if handle != me.link.connection then Same(me.(link := l))
    else
      match me.side
      case ToPad =>
        Change(me.(link := l.(connection := 0, incoming := false, outputSeen := false, sniffing := false),
                   retry := Schedule(me.retry, 3000, now)),
               [Duty(DUTY_EAGER)])
      case ToConsole =>
        Change(me.(link := Link(0, l.open, false, false, false, l.peer, false),
                   retry := Schedule(me.retry, if reason == REMOTE_USER then 20_000 else 3000, now),
                   past := me.past.(overridden := true)),
               [Duty(DUTY_EAGER), Scan(SCAN_PAGE_ONLY)])
  }

  /** The peer this side belongs to, told apart from its other radio by all but the last byte of the address. */
  predicate Expects(me: Status, addr: Addr) {
    var expected := if me.side.ToPad? then me.addrs.bt else me.addrs.console;
    expected != UNSET && addr[1..] == expected[1..]
  }

  /** handle_conn_request. */
  function ConnectionRequest(me: Status, addr: Addr): Change {
    if Expects(me, addr) then Change(me.(acceptedIncoming := true), [AcceptConn(addr)])
    else Change(me, [RejectConn(addr)])
  }

  /** What handle_mode_change keeps: whether the link that is relayed on is sniffed. */
  function ModeChange(me: Status, status: byte, handle: u16, mode: byte): Change {
    if status != 0 || handle != me.link.connection then Same(me)
    else Same(me.(link := me.link.(sniffing := mode == LINK_MODE_SNIFF)))
  }

  /** The handles up to this one, asked to go in order. */
  function Sweep(last: u16): seq<Command> { if last == 0 then [] else Sweep(last - 1) + [Disconnect(last)] }

  const STALE_HANDLES: u16 := 12

  /**
   * A Create Connection refused by a Command Status. Without a link of ours "connection exists" means one left
   * by an earlier run: once, those are swept away and the page is made again. Any other refusal ends the matter.
   */
  function PageRefusal(me: Status, status: byte, now: int): Change {
    if status != CONNECTION_EXISTS || me.link.connection != 0 || me.retry.swept then Same(me)
    else Change(me.(retry := Schedule(me.retry, 3000, now).(swept := true)), Sweep(STALE_HANDLES))
  }

  /** The reconnect timer fires: it is not running any more, and pages unless a link came up meanwhile. */
  function Reconnect(me: Status): Change {
    Change(me.(retry := me.retry.(due := None)), if me.link.connection != 0 then [] else Paging(me.addrs.bt))
  }

  /** connect_to_console, called on the console-facing handler. */
  function ConnectToConsole(me: Status, addr: Addr, now: int): Change {
    if !me.side.ToConsole? || me.link.connection != 0 then Same(me)
    else
      Change(me.(addrs := me.addrs.(console := addr, bt := addr), handoverSince := Some(now),
                 past := me.past.(overridden := true, calledEarly := !me.past.started)),
             [Scan(SCAN_PAGE_ONLY), PageTimeout(TIMEOUT_HANDOVER)] + Paging(addr))
  }

  /** The first output report after a channel reset, and quiet_the_radio. */
  function ConsoleOutput(me: Status): Change {
    if me.link.outputSeen then Same(me)
    else Change(me.(link := me.link.(outputSeen := true)), if me.link.onPlay then [Duty(DUTY_NORMAL)] else [])
  }

  // ------------------------------------------------------------------ whole runs

  datatype System = System(pad: Handler, console: Handler)

  /** What a Connection Complete really ends: a page of this side's, or a call it accepted. The code is not told. */
  datatype Attempt = OurPage | TheirCall

  datatype SysEvent =
    | Starts(side: Side, now: int)
    | Complete(side: Side, status: byte, addr: Addr, handle: u16, closes: Attempt, now: int)
    | Disconnected(side: Side, handle: u16, reason: byte, now: int)
    | Called(side: Side, addr: Addr, now: int)
    | TimerFires(side: Side, now: int)
    | HandOver(addr: Addr, now: int)
    | Output(now: int)
    | PageRefused(side: Side, status: byte, ncmd: byte, now: int)
    | ModeChanged(side: Side, status: byte, handle: u16, mode: byte, now: int)
    | OnQueue(side: Side, e: CommandQueue.Event)

  predicate Sets(c: Command, ocf: u16) { c.ogf == OGF_HOST_CTL && c.ocf == ocf }

  /** Neither scan mode nor duty cycle nor page timeout. */
  predicate SetsNone(c: Command) {
    !Sets(c, OCF_WRITE_SCAN_ENABLE) && !Sets(c, OCF_WRITE_PAGE_ACTIVITY) && !Sets(c, OCF_WRITE_PAGE_TIMEOUT)
  }

  /**
   * A handler reads events only once it has started and starts once; a link that is up has a handle other
   * than 0; the timer fires when it is due. Any command may enter a queue beside the operations above, but
   * the three settings are theirs alone.
   */
  predicate LegalEvent(s: System, e: SysEvent) {
    match e
    case Starts(side, _) => !At(s, side).st.past.started
    case Complete(side, status, _, handle, _, _) => At(s, side).st.past.started && (status == 0 ==> handle != 0)
    case Disconnected(side, _, _, _) => At(s, side).st.past.started
    case Called(side, _, _) => At(s, side).st.past.started
    case TimerFires(side, now) => At(s, side).st.retry.due.Some? && At(s, side).st.retry.due.value <= now
    case HandOver(_, _) => true
    case Output(_) => s.console.st.past.started
    case PageRefused(side, status, _, _) => At(s, side).st.past.started && status != 0
    case ModeChanged(side, _, _, _, _) => At(s, side).st.past.started
    case OnQueue(_, e) => e.Send? ==> SetsNone(e.c)
  }

  /** The handler an event is for. */
  function SideOf(e: SysEvent): Side { if e.HandOver? || e.Output? then ToConsole else e.side }

  function At(s: System, side: Side): Handler { if side.ToPad? then s.pad else s.console }

  function Other(s: System, side: Side): Handler { if side.ToPad? then s.console else s.pad }

  function Back(side: Side, me: Handler, other: Handler): System {
    if side.ToPad? then System(me, other) else System(other, me)
  }

  /** What an event does to the handler it is for. */
  function Own(me: Status, e: SysEvent): Change {
    match e
    case Starts(_, _) => StartUp(me)
    case Complete(_, status, addr, handle, _, now) => ConnectionComplete(me, status, addr, handle, now)
    case Disconnected(_, handle, reason, now) => DisconnectComplete(me, handle, reason, now)
    case Called(_, addr, _) => ConnectionRequest(me, addr)
    case TimerFires(_, _) => Reconnect(me)
    case HandOver(addr, now) => ConnectToConsole(me, addr, now)
    case Output(_) => ConsoleOutput(me)
    case PageRefused(_, status, _, now) => PageRefusal(me, status, now)
    case ModeChanged(_, status, handle, mode, _) => ModeChange(me, status, handle, mode)
    case OnQueue(_, _) => Same(me)
  }

  /** And to its counterpart. */
  function Others(me: Status, other: Status, e: SysEvent): Change {
    match e
    case Starts(_, _) => WhilePaging(me.side, other, me.addrs.bt)
    case Complete(_, status, _, _, _, _) => EndSuppression(me, other, status)
    case TimerFires(_, _) => if me.link.connection != 0 then Same(other) else WhilePaging(me.side, other, me.addrs.bt)
    case _ => Same(other)
  }

  /** Something that happens to a handler's queue alone. A Command Status brings an allowance, whatever else it says. */
  function OnPort(h: Handler, q: CommandQueue.Event): Handler { h.(port := CommandQueue.Step(h.port, q, h.accepts)) }

  function Step(s: System, e: SysEvent): System {
    var me, other := At(s, SideOf(e)), Other(s, SideOf(e));
    match e
    case OnQueue(side, q) => Back(side, OnPort(me, q), other)
    case PageRefused(side, _, ncmd, now) => Back(side, Apply(OnPort(me, Answers(ncmd, now)), Own(me.st, e), now), other)
    case _ => Back(SideOf(e), Apply(me, Own(me.st, e), e.now), Apply(other, Others(me.st, other.st, e), e.now))
  }

  function Run(s: System, es: seq<SysEvent>): System { Traces.Run(Step, s, es) }

  ghost predicate LegalRun(s: System, es: seq<SysEvent>) { Traces.AllAllowed(Step, LegalEvent, s, es) }

  type Happening = (System, SysEvent) -> bool

  /** Somewhere in the run p happened, and q has not happened after that. */
  ghost predicate Since(s: System, es: seq<SysEvent>, p: Happening, q: Happening) { Traces.Since(Step, s, es, p, q) }

  function NewHandler(side: Side, accepts: Oracle, btAddr: Addr, spoofAddr: Addr, consoleAddr: Addr): Handler {
    var st := Status(side, Addresses(btAddr, spoofAddr, consoleAddr),
                     Link(0, {}, false, false, false, UNSET, false), false, false, None,
                     Retry(0, None, false), Past(false, false, false));
    Handler(st, FRESH, accepts)
  }

  /** The two handlers as main() makes them: the console side may claim an address and know the console's. */
  function Initial(padAccepts: Oracle, consoleAccepts: Oracle, pad: Addr, spoof: Addr, console: Addr): System {
    System(NewHandler(ToPad, padAccepts, pad, UNSET, UNSET),
           NewHandler(ToConsole, consoleAccepts, UNSET, spoof, console))
  }

  /** Before anything has happened. */
  ghost predicate Begins(s: System) {
    exists p: Oracle, c: Oracle, pad: Addr, spoof: Addr, console: Addr :: s == Initial(p, c, pad, spoof, console)
  }

  // ------------------------------------------------------- what a radio was told

  /** The parameter of the last host-control command with this opcode among `cs`. */
  function LastSetting(cs: seq<Command>, ocf: u16): Option<seq<byte>> {
    if cs == [] then None
    else if Sets(cs[|cs| - 1], ocf) then Some(cs[|cs| - 1].param)
    else LastSetting(cs[..|cs| - 1], ocf)
  }

  /** The commands that actually reached the controller, in order. */
  function Reached(outcomes: seq<Outcome>): seq<Command> {
    if outcomes == [] then []
    else
      var rest := Reached(outcomes[..|outcomes| - 1]);
      if outcomes[|outcomes| - 1].written then rest + [outcomes[|outcomes| - 1].command] else rest
  }

  /** The three settings as a list of commands leaves them. */
  datatype Settings = Settings(duty: Option<seq<byte>>, scan: Option<seq<byte>>, timeout: Option<seq<byte>>)

  function SettingsOf(cs: seq<Command>): Settings {
    Settings(LastSetting(cs, OCF_WRITE_PAGE_ACTIVITY), LastSetting(cs, OCF_WRITE_SCAN_ENABLE),
             LastSetting(cs, OCF_WRITE_PAGE_TIMEOUT))
  }

  /** What was asked of a radio, and what it was told. */
  function Asked(h: Handler): Settings { SettingsOf(h.port.pushed) }

  function Told(h: Handler): Settings { SettingsOf(Reached(h.port.taken)) }

  /** Where the last command that p picks is among `cs`. */
  function LastWhere(cs: seq<Command>, p: Command -> bool): Option<nat> {
    if cs == [] then None
    else if p(cs[|cs| - 1]) then Some(|cs| - 1)
    else LastWhere(cs[..|cs| - 1], p)
  }

  lemma {:induction false} LastWhereIs(cs: seq<Command>, p: Command -> bool)
    ensures match LastWhere(cs, p)
            case Some(k) => k < |cs| && p(cs[k]) && forall i :: k < i < |cs| ==> !p(cs[i])
            case None => forall i :: 0 <= i < |cs| ==> !p(cs[i])
  {
    if cs != [] && !p(cs[|cs| - 1]) {
      LastWhereIs(cs[..|cs| - 1], p);
    }
  }

  function Setter(ocf: u16): Command -> bool { c => Sets(c, ocf) }

  /** The last command to set this has been written, or there was none. */
  ghost predicate Heard(h: Handler, ocf: u16) {
    match LastWhere(h.port.pushed, Setter(ocf))
    case Some(k) => k < |h.port.taken| && h.port.taken[k].written
    case None => true
  }

  /** A setting is that of the last command to set it. */
  lemma {:induction false} SettingIs(cs: seq<Command>, ocf: u16, k: nat)
    requires k < |cs| && Sets(cs[k], ocf) && forall i :: k < i < |cs| ==> !Sets(cs[i], ocf)
    ensures LastSetting(cs, ocf) == Some(cs[k].param)
  {
    if k < |cs| - 1 {
      SettingIs(cs[..|cs| - 1], ocf, k);
    }
  }

  lemma {:induction false} NoSetting(cs: seq<Command>, ocf: u16)
    requires forall i :: 0 <= i < |cs| ==> !Sets(cs[i], ocf)
    ensures LastSetting(cs, ocf) == None
  {
    if cs != [] {
      NoSetting(cs[..|cs| - 1], ocf);
    }
  }

  lemma {:induction false} ReachedSettingIs(outcomes: seq<Outcome>, ocf: u16, k: nat)
    requires k < |outcomes| && outcomes[k].written && Sets(outcomes[k].command, ocf)
    requires forall i :: k < i < |outcomes| ==> !Sets(outcomes[i].command, ocf)
    ensures LastSetting(Reached(outcomes), ocf) == Some(outcomes[k].command.param)
  {
    var front, last := outcomes[..|outcomes| - 1], outcomes[|outcomes| - 1];
    assert (Reached(front) + [last.command])[..|Reached(front)|] == Reached(front);
    if k < |outcomes| - 1 {
      ReachedSettingIs(front, ocf, k);
    }
  }

  lemma {:induction false} ReachedNoSetting(outcomes: seq<Outcome>, ocf: u16)
    requires forall i :: 0 <= i < |outcomes| ==> !Sets(outcomes[i].command, ocf)
    ensures LastSetting(Reached(outcomes), ocf) == None
  {
    if outcomes != [] {
      var front, last := outcomes[..|outcomes| - 1], outcomes[|outcomes| - 1];
      assert (Reached(front) + [last.command])[..|Reached(front)|] == Reached(front);
      ReachedNoSetting(front, ocf);
    }
  }

  /** Once the last command that sets something has been written, the radio was last told what was last asked. */
  lemma HeardMeansTold(h: Handler, ocf: u16)
    requires PortInv(h.port) && Heard(h, ocf)
    ensures LastSetting(Reached(h.port.taken), ocf) == LastSetting(h.port.pushed, ocf)
  {
    var p := h.port;
    LastWhereIs(p.pushed, Setter(ocf));
    assert forall i :: 0 <= i < |p.taken| ==> p.pushed[i] == p.taken[i].command;
    match LastWhere(p.pushed, Setter(ocf))
    case Some(k) =>
      SettingIs(p.pushed, ocf, k);
      ReachedSettingIs(p.taken, ocf, k);
    case None =>
      NoSetting(p.pushed, ocf);
      ReachedNoSetting(p.taken, ocf);
  }

  // -------------------------------------------------------- sending and its effect

  ghost predicate PortOk(p: Port) { PortInv(p) && CommandQueue.Settled(p) }

  /** The settings after one more command, and after a list of them. */
  function One(a: Settings, c: Command): Settings {
    if Sets(c, OCF_WRITE_PAGE_ACTIVITY) then a.(duty := Some(c.param))
    else if Sets(c, OCF_WRITE_SCAN_ENABLE) then a.(scan := Some(c.param))
    else if Sets(c, OCF_WRITE_PAGE_TIMEOUT) then a.(timeout := Some(c.param))
    else a
  }

  function After(a: Settings, cs: seq<Command>): Settings
    decreases cs
  {
    if cs == [] then a else After(One(a, cs[0]), cs[1..])
  }

  lemma SettingsAppend(cs: seq<Command>, c: Command)
    ensures SettingsOf(cs + [c]) == One(SettingsOf(cs), c)
  {
    assert (cs + [c])[..|cs|] == cs;
  }

  lemma {:induction false} AfterConcat(a: Settings, x: seq<Command>, y: seq<Command>)
    ensures After(a, x + y) == After(After(a, x), y)
    decreases x
  {
    if x == [] {
      assert x + y == y;
    } else {
      AfterConcat(One(a, x[0]), x[1..], y);
      assert (x + y)[1..] == x[1..] + y;
    }
  }

  lemma AfterTwo(a: Settings, x: Command, y: Command)
    ensures After(a, [x]) == One(a, x) && After(a, [x, y]) == One(One(a, x), y)
  {
    assert [x][1..] == [] && [x, y][1..] == [y] && [y][1..] == [];
    assert After(One(a, x), [y]) == After(One(One(a, x), y), []);
  }

  /** Every command is pushed, in order, and the port stays in order. */
  lemma {:induction false} SendingPushes(p: Port, accepts: Oracle, cs: seq<Command>, now: int)
    requires PortOk(p)
    ensures var q := Sending(p, accepts, cs, now);
            PortOk(q) && q.pushed == p.pushed + cs && SettingsOf(q.pushed) == After(SettingsOf(p.pushed), cs)
    decreases cs
  {
    if cs == [] {
      assert p.pushed + cs == p.pushed;
    } else {
      PumpKeepsInv(Push(p, cs[0]), accepts, now);
      SettingsAppend(p.pushed, cs[0]);
      SendingPushes(SendCmd(p, cs[0], accepts, now), accepts, cs[1..], now);
      assert p.pushed + [cs[0]] + cs[1..] == p.pushed + cs;
    }
  }

  lemma {:induction false} SendingOneMore(p: Port, accepts: Oracle, cs: seq<Command>, c: Command, now: int)
    ensures Sending(p, accepts, cs + [c], now) == SendCmd(Sending(p, accepts, cs, now), c, accepts, now)
    decreases cs
  {
    if cs == [] {
      assert [c][1..] == [] && cs + [c] == [c];
    } else {
      SendingOneMore(SendCmd(p, cs[0], accepts, now), accepts, cs[1..], c, now);
      assert (cs + [c])[1..] == cs[1..] + [c];
    }
  }

  // ------------------------------------------------------- what every step keeps

  /** The pad radio: eager while it waits, normal while it holds its link. */
  ghost predicate PadDuty(st: Status, a: Settings) {
    st.past.started ==> a.duty == Some(if st.link.connection != 0 then DUTY_NORMAL else DUTY_EAGER)
  }

  /** The console radio: normal only on the play link, and always so once the console sends output on it. */
  ghost predicate ConsoleDuty(st: Status, a: Settings) {
    && (st.past.started ==> a.duty == Some(DUTY_EAGER) || a.duty == Some(DUTY_NORMAL))
    && (a.duty == Some(DUTY_NORMAL) ==> st.link.onPlay)
    && (st.link.onPlay && st.link.outputSeen ==> a.duty == Some(DUTY_NORMAL))
    && (st.link.onPlay ==> st.link.connection != 0)
    && (!st.past.started ==> a.duty == None && !st.link.outputSeen)
  }

  /** The console radio is asked to be deaf exactly while it is suppressed and nothing has overridden that. */
  ghost predicate Deafness(st: Status, a: Settings) {
    a.scan == Some(SCAN_NONE) <==> st.scanSuppressed && !st.past.overridden
  }

  /**
   * The long page timeout is asked for exactly while the handover's calling lasts - unless it began before
   * start-up, which sets the short one.
   */
  ghost predicate Timeouts(st: Status, a: Settings) {
    && (a.timeout == Some(TIMEOUT_HANDOVER) <==>
          st.handoverSince.Some? && !(st.past.calledEarly && st.past.started))
    && (st.past.started ==> a.timeout == Some(TIMEOUT_SHORT) || a.timeout == Some(TIMEOUT_HANDOVER))
    && (st.side.ToPad? ==> st.handoverSince.None?)
    && (st.handoverSince.Some? && !st.past.started ==> st.past.calledEarly)
  }

  /** What a handler knows and what it has asked of its radio agree. */
  ghost predicate Agrees(st: Status, a: Settings) {
    && Timeouts(st, a)
    && (!st.past.started ==> st.link.connection == 0)
    && match st.side
       case ToPad => PadDuty(st, a)
       case ToConsole => ConsoleDuty(st, a) && Deafness(st, a)
  }

  /** What holds of either handler between events. */
  ghost predicate Good(h: Handler) { PortOk(h.port) && Agrees(h.st, Asked(h)) }

  ghost predicate SysInv(s: System) {
    s.pad.st.side == ToPad && s.console.st.side == ToConsole && Good(s.pad) && Good(s.console)
  }

  lemma Distinct()
    ensures DUTY_NORMAL != DUTY_EAGER && SCAN_NONE != SCAN_PAGE_ONLY && TIMEOUT_SHORT != TIMEOUT_HANDOVER
  {
    assert TIMEOUT_SHORT[1] == 0x08 && TIMEOUT_HANDOVER[1] == 0x10;
    assert DUTY_NORMAL[0] == 0x00 && DUTY_NORMAL[1] == 0x08 && DUTY_EAGER[1] == 0x04;
  }

  /** The change leaves a handler of the same side whose settings agree with what it then knows. */
  ghost predicate Fits(side: Side, a: Settings, c: Change) { c.st.side == side && Agrees(c.st, After(a, c.commands)) }

  lemma ApplyKeepsGood(h: Handler, c: Change, now: int)
    requires Good(h) && Fits(h.st.side, Asked(h), c)
    ensures Good(Apply(h, c, now)) && Apply(h, c, now).st.side == h.st.side
  {
    SendingPushes(h.port, h.accepts, c.commands, now);
  }

  lemma PagingSetsNothing(a: Settings, addr: Addr)
    ensures After(a, Paging(addr)) == a
  {
    AfterTwo(a, CreateConn(addr), CreateConn(addr));
  }

  lemma WhilePagingFits(side: Side, other: Status, a: Settings, addr: Addr)
    requires Agrees(other, a) && side != other.side
    ensures Fits(other.side, a, WhilePaging(side, other, addr))
  {
    AfterTwo(a, Scan(SCAN_NONE), Scan(SCAN_NONE));
  }

  lemma StartUpSettings(a: Settings)
    ensures After(a, START_UP) == a.(duty := Some(DUTY_EAGER), timeout := Some(TIMEOUT_SHORT))
  {
    var first, second := [SIMPLE_PAIRING, EVENT_MASK], [AUTHENTICATION, Duty(DUTY_EAGER)];
    var third, fourth := [PageTimeout(TIMEOUT_SHORT), READ_BUFFER_SIZE], [LINK_POLICY];
    assert START_UP == first + second + third + fourth;
    AfterConcat(a, first + second + third, fourth);
    AfterConcat(a, first + second, third);
    AfterConcat(a, first, second);
    AfterTwo(a, SIMPLE_PAIRING, EVENT_MASK);
    AfterTwo(a, AUTHENTICATION, Duty(DUTY_EAGER));
    var b := a.(duty := Some(DUTY_EAGER));
    AfterTwo(b, PageTimeout(TIMEOUT_SHORT), READ_BUFFER_SIZE);
    AfterTwo(b.(timeout := Some(TIMEOUT_SHORT)), LINK_POLICY, LINK_POLICY);
  }

  lemma IdentitySettings(a: Settings, st: Status)
    ensures After(a, Identity(st)) == if st.scanSuppressed then a else a.(scan := Some(SCAN_PAGE_ONLY))
  {
    var spoof, named := Spoof(st.addrs.spoof), [CLASS_OF_DEVICE, INQUIRY_RESPONSE];
    AfterTwo(a, Command(0x3f, 0x01, st.addrs.spoof), READ_ADDRESS);
    AfterConcat(a, spoof, named);
    AfterTwo(a, CLASS_OF_DEVICE, INQUIRY_RESPONSE);
    AfterConcat(a, spoof + named, [Scan(SCAN_PAGE_ONLY)]);
    AfterTwo(a, Scan(SCAN_PAGE_ONLY), Scan(SCAN_PAGE_ONLY));
  }

  lemma {:induction false} AfterNothing(a: Settings, cs: seq<Command>)
    requires forall i :: 0 <= i < |cs| ==> SetsNone(cs[i])
    ensures After(a, cs) == a
    decreases cs
  {
    if cs != [] {
      AfterNothing(a, cs[1..]);
    }
  }

  lemma {:induction false} SweepSetsNothing(last: u16)
    ensures forall i :: 0 <= i < |Sweep(last)| ==> SetsNone(Sweep(last)[i])
  {
    if last != 0 {
      SweepSetsNothing(last - 1);
    }
  }

  /** Start-up of either side, before or after the other, leaves settings that agree with what is known. */
  lemma StartUpFits(st: Status, a: Settings)
    requires Agrees(st, a) && !st.past.started
    ensures Fits(st.side, a, StartUp(st))
  {
    Distinct();
    AfterConcat(a, START_UP, SideSettings(st));
    StartUpSettings(a);
    var b := a.(duty := Some(DUTY_EAGER), timeout := Some(TIMEOUT_SHORT));
    if st.side.ToPad? {
      AfterConcat(b, [Scan(SCAN_PAGE_ONLY)], Paging(st.addrs.bt));
      AfterTwo(b, Scan(SCAN_PAGE_ONLY), Scan(SCAN_PAGE_ONLY));
      PagingSetsNothing(b.(scan := Some(SCAN_PAGE_ONLY)), st.addrs.bt);
    } else {
      IdentitySettings(b, st);
    }
  }

  lemma EndSuppressionFits(me: Status, other: Status, a: Settings, status: byte)
    requires Agrees(other, a) && me.side != other.side
    ensures Fits(other.side, a, EndSuppression(me, other, status))
  {
    Distinct();
    AfterTwo(a, Scan(SCAN_PAGE_ONLY), Scan(SCAN_PAGE_ONLY));
  }

  /** Agreement but for the pad's duty cycle. */
  ghost predicate AgreesButDuty(st: Status, a: Settings) {
    Timeouts(st, a) && st.past.started && (st.side.ToConsole? ==> ConsoleDuty(st, a) && Deafness(st, a))
  }

  lemma EndHandoverFits(st: Status, a: Settings)
    requires AgreesButDuty(st, a)
    ensures var c := EndHandover(st);
            && AgreesButDuty(c.st, After(a, c.commands)) && After(a, c.commands).duty == a.duty
            && c.st == st.(handoverSince := None)
  {
    Distinct();
    AfterTwo(a, PageTimeout(TIMEOUT_SHORT), PageTimeout(TIMEOUT_SHORT));
  }

  lemma TakeLinkFits(st: Status, a: Settings, handle: u16, addr: Addr)
    requires Agrees(st, a) && st.past.started && handle != 0
    ensures Fits(st.side, a, TakeLink(st, handle, addr))
  {
    assert AgreesButDuty(Adopt(st, handle, addr), a);
    EndHandoverFits(Adopt(st, handle, addr), a);
    var c := EndHandover(Adopt(st, handle, addr));
    var duty := if st.side.ToPad? then [Duty(DUTY_NORMAL)] else [];
    var auth := if c.st.link.incoming then [] else [Authenticate(handle)];
    AfterConcat(a, c.commands + duty, auth);
    AfterConcat(a, c.commands, duty);
    AfterTwo(After(a, c.commands), Duty(DUTY_NORMAL), Duty(DUTY_NORMAL));
    AfterTwo(After(a, c.commands + duty), Authenticate(handle), Authenticate(handle));
  }

  /** The retries are nothing to what a radio is asked for. */
  lemma RetryAgrees(st: Status, a: Settings, retry: Retry)
    requires Agrees(st, a)
    ensures Agrees(st.(retry := retry), a)
  {
  }

  lemma ConsolePageMissedFits(st: Status, a: Settings, status: byte, now: int)
    requires Agrees(st, a) && st.past.started && st.side.ToConsole?
    ensures Fits(st.side, a, ConsolePageMissed(st, status, now))
  {
    EndHandoverFits(st, a);
    var c := if WindowOver(st, now) then EndHandover(st) else Same(st);
    RetryAgrees(c.st, After(a, c.commands), ConsolePageMissed(st, status, now).st.retry);
  }

  lemma PageMissedFits(st: Status, a: Settings, status: byte, addr: Addr, now: int)
    requires Agrees(st, a) && st.past.started
    ensures Fits(st.side, a, PageMissed(st, status, addr, now))
  {
    if st.side.ToConsole? {
      ConsolePageMissedFits(st, a, status, now);
    } else {
      RetryAgrees(st, a, PageMissed(st, status, addr, now).st.retry);
    }
  }

  lemma ConnectionCompleteFits(me: Status, a: Settings, status: byte, addr: Addr, handle: u16, now: int)
    requires Agrees(me, a) && me.past.started && (status == 0 ==> handle != 0)
    ensures Fits(me.side, a, ConnectionComplete(me, status, addr, handle, now))
  {
    var st := if FailedIncoming(me, status) then me.(acceptedIncoming := false) else me;
    assert Agrees(st, a);
    if status == 0 {
      TakeLinkFits(st, a, handle, addr);
    } else {
      PageMissedFits(st, a, status, addr, now);
    }
  }

  lemma DisconnectFits(me: Status, a: Settings, handle: u16, reason: byte, now: int)
    requires Agrees(me, a) && me.past.started
    ensures Fits(me.side, a, DisconnectComplete(me, handle, reason, now))
  {
    Distinct();
    AfterTwo(a, Duty(DUTY_EAGER), Scan(SCAN_PAGE_ONLY));
  }

  lemma ConnectToConsoleFits(me: Status, a: Settings, addr: Addr, now: int)
    requires Agrees(me, a) && me.side.ToConsole?
    ensures Fits(me.side, a, ConnectToConsole(me, addr, now))
  {
    Distinct();
    var settings := [Scan(SCAN_PAGE_ONLY), PageTimeout(TIMEOUT_HANDOVER)];
    AfterConcat(a, settings, Paging(addr));
    AfterTwo(a, Scan(SCAN_PAGE_ONLY), PageTimeout(TIMEOUT_HANDOVER));
    PagingSetsNothing(After(a, settings), addr);
  }

  lemma OwnFits(me: Status, a: Settings, e: SysEvent)
    requires Agrees(me, a) && (e.HandOver? || e.Output? ==> me.side.ToConsole?)
    requires e.Starts? ==> !me.past.started
    requires e.Complete? || e.Disconnected? || e.Output? ==> me.past.started
    requires e.Complete? && e.status == 0 ==> e.handle != 0
    ensures Fits(me.side, a, Own(me, e))
  {
    match e
    case Starts(_, _) => StartUpFits(me, a);
    case Complete(_, status, addr, handle, _, now) => ConnectionCompleteFits(me, a, status, addr, handle, now);
    case Disconnected(_, handle, reason, now) => DisconnectFits(me, a, handle, reason, now);
    case Called(_, addr, _) =>
      AfterTwo(a, AcceptConn(addr), AcceptConn(addr));
      AfterTwo(a, RejectConn(addr), RejectConn(addr));
    case TimerFires(_, _) =>
      PagingSetsNothing(a, me.addrs.bt);
      RetryAgrees(me, a, me.retry.(due := None));
    case HandOver(addr, now) => ConnectToConsoleFits(me, a, addr, now);
    case Output(_) => AfterTwo(a, Duty(DUTY_NORMAL), Duty(DUTY_NORMAL));
    case PageRefused(_, status, _, now) =>
      SweepSetsNothing(STALE_HANDLES);
      AfterNothing(a, PageRefusal(me, status, now).commands);
      RetryAgrees(me, a, PageRefusal(me, status, now).st.retry);
    case ModeChanged(_, _, _, _, _) =>
    case OnQueue(_, _) =>
  }

  lemma OthersFit(me: Status, other: Status, a: Settings, e: SysEvent)
    requires Agrees(other, a) && me.side != other.side
    ensures Fits(other.side, a, Others(me, other, e))
  {
    WhilePagingFits(me.side, other, a, me.addrs.bt);
    if e.Complete? {
      EndSuppressionFits(me, other, a, e.status);
    }
  }

  /**
   * Answers, ticks and resets move commands out of a queue and never change what was asked for; nor do commands
   * that set none of the three.
   */
  lemma QueueEventKeepsGood(h: Handler, e: CommandQueue.Event)
    requires Good(h) && (e.Send? ==> SetsNone(e.c))
    ensures Good(OnPort(h, e)) && OnPort(h, e).st == h.st && (!e.Send? ==> Asked(OnPort(h, e)) == Asked(h))
  {
    CommandQueue.StepKeepsInv(h.port, e, h.accepts);
    QueueEventPushes(h.port, e, h.accepts);
    if e.Send? {
      SettingsAppend(h.port.pushed, e.c);
    } else {
      assert h.port.pushed + [] == h.port.pushed;
    }
  }

  lemma QueueEventPushes(p: Port, e: CommandQueue.Event, accepts: Oracle)
    requires PortInv(p)
    ensures CommandQueue.Step(p, e, accepts).pushed == p.pushed + if e.Send? then [e.c] else []
  {
    match e
    case Send(c, now) => PumpKeepsInv(Push(p, c), accepts, now);
    case Answers(n, now) => PumpKeepsInv(Grant(p, n), accepts, now);
    case Tick(now) =>
      if Overdue(p.q, now) {
        PumpKeepsInv(p.(q := GivenUp(p.q), grant := 1, spent := 0), accepts, now);
      }
    case ResetBegins =>
    case ResetCompletes(n, now) => PumpKeepsInv(SetHeld(Grant(p, n), false), accepts, now);
    case ResetFails(now) => PumpKeepsInv(SetHeld(p, false), accepts, now);
  }

  lemma StepKeepsInv(s: System, e: SysEvent)
    requires SysInv(s) && LegalEvent(s, e)
    ensures SysInv(Step(s, e))
  {
    var me, other := At(s, SideOf(e)), Other(s, SideOf(e));
    if e.OnQueue? {
      QueueEventKeepsGood(me, e.e);
    } else if e.PageRefused? {
      QueueEventKeepsGood(me, Answers(e.ncmd, e.now));
      OwnFits(me.st, Asked(me), e);
      ApplyKeepsGood(OnPort(me, Answers(e.ncmd, e.now)), Own(me.st, e), e.now);
    } else {
      OwnFits(me.st, Asked(me), e);
      OthersFit(me.st, other.st, Asked(other), e);
      ApplyKeepsGood(me, Own(me.st, e), e.now);
      ApplyKeepsGood(other, Others(me.st, other.st, e), e.now);
    }
  }

  lemma {:induction false} RunKeepsInv(s: System, es: seq<SysEvent>)
    requires SysInv(s) && LegalRun(s, es)
    ensures SysInv(Run(s, es))
  {
    if es != [] {
      Traces.RunLast(Step, LegalEvent, s, es);
      RunKeepsInv(s, es[..|es| - 1]);
      StepKeepsInv(Run(s, es[..|es| - 1]), es[|es| - 1]);
    }
  }

  lemma InitialIsGood(s: System)
    requires Begins(s)
    ensures SysInv(s)
  {
    assert Commands([]) == [];
  }

  // -------------------------------------------------------------- the main claims

  /**
   * In every run of both handlers, once the last command for its duty cycle has been written, the pad radio was
   * last told the normal one exactly when it holds its link, and the console radio only on the play link - and
   * there for certain once the console has sent output.
   */
  lemma PageScanDutyFollowsTheLink(s: System, es: seq<SysEvent>)
    requires Begins(s) && LegalRun(s, es)
    ensures var t := Run(s, es);
            && (t.pad.st.past.started && Heard(t.pad, OCF_WRITE_PAGE_ACTIVITY) ==>
                  (Told(t.pad).duty == Some(DUTY_NORMAL) <==> t.pad.st.link.connection != 0))
            && (Heard(t.console, OCF_WRITE_PAGE_ACTIVITY) ==>
                  && (Told(t.console).duty == Some(DUTY_NORMAL) ==> t.console.st.link.onPlay)
                  && (t.console.st.link.onPlay && t.console.st.link.outputSeen ==>
                        Told(t.console).duty == Some(DUTY_NORMAL)))
  {
    InitialIsGood(s);
    RunKeepsInv(s, es);
    Distinct();
    var t := Run(s, es);
    if Heard(t.pad, OCF_WRITE_PAGE_ACTIVITY) {
      HeardMeansTold(t.pad, OCF_WRITE_PAGE_ACTIVITY);
    }
    if Heard(t.console, OCF_WRITE_PAGE_ACTIVITY) {
      HeardMeansTold(t.console, OCF_WRITE_PAGE_ACTIVITY);
    }
  }

  /** The pad's handler pages for the address the console's radio has borrowed. */
  predicate Silences(s: System, e: SysEvent) {
    && ((e.Starts? && e.side.ToPad?) || (e.TimerFires? && e.side.ToPad? && s.pad.st.link.connection == 0))
    && s.console.st.addrs.spoof != UNSET && s.pad.st.addrs.bt == s.console.st.addrs.spoof
  }

  /** The console's handler loses its link, or starts to call the console. */
  predicate Overrides(s: System, e: SysEvent) {
    (e.Disconnected? && e.side.ToConsole? && e.handle == s.console.st.link.connection) || Calls(s, e)
  }

  predicate Calls(s: System, e: SysEvent) { e.HandOver? && s.console.st.link.connection == 0 }

  predicate ConsoleStarts(s: System, e: SysEvent) { e.Starts? && e.side.ToConsole? }

  /** The pad's handler accepts a call. */
  predicate Accepts(s: System, e: SysEvent) { e.Called? && e.side.ToPad? && Expects(s.pad.st, e.addr) }

  predicate PadCompletes(s: System, e: SysEvent) { e.Complete? && e.side.ToPad? }

  /** The handlers are on their sides. */
  predicate Sided(s: System) { s.pad.st.side == ToPad && s.console.st.side == ToConsole }

  lemma StepStatus(s: System, e: SysEvent)
    ensures var side, t := SideOf(e), Step(s, e);
            && At(t, side).st == Own(At(s, side).st, e).st
            && Other(t, side).st == Others(At(s, side).st, Other(s, side).st, e).st
  {
  }

  /** A page that missed changes nothing but the retries and the handover's calling. */
  lemma PageMissedFrame(st: Status, status: byte, addr: Addr, now: int)
    ensures var t := PageMissed(st, status, addr, now).st;
            && t == st.(retry := t.retry, handoverSince := t.handoverSince)
            && (t.handoverSince.Some? ==> t.handoverSince == st.handoverSince)
  {
    var t := PageMissed(st, status, addr, now).st;
    assert st == st.(retry := st.retry, handoverSince := st.handoverSince);
  }

  /** Which of the events for a handler change its flags, and how. */
  lemma OwnFlags(me: Status, e: SysEvent)
    ensures var t := Own(me, e).st;
            && t.side == me.side
            && t.acceptedIncoming == (if e.Called? && Expects(me, e.addr) then true
                                      else if e.Complete? then false
                                      else me.acceptedIncoming)
            && t.past.overridden == (me.past.overridden || (me.side.ToConsole? &&
                 ((e.Disconnected? && e.handle == me.link.connection) || (e.HandOver? && me.link.connection == 0))))
  {
    if e.Complete? && e.status != 0 {
      PageMissedFrame(me.(acceptedIncoming := false), e.status, e.addr, e.now);
      assert !me.acceptedIncoming ==> me.(acceptedIncoming := false) == me;
    }
  }

  lemma OthersFlags(me: Status, other: Status, e: SysEvent)
    ensures var t := Others(me, other, e).st;
            && t == other.(scanSuppressed := t.scanSuppressed, past := t.past)
            && t.past == other.past.(overridden := t.past.overridden)
            && t.past.overridden ==
               (other.past.overridden
                && !(me.side.ToPad? && (e.Starts? || (e.TimerFires? && me.link.connection == 0))
                     && other.addrs.spoof != UNSET && me.addrs.bt == other.addrs.spoof))
  {
  }

  lemma FlagsStep(s: System, e: SysEvent)
    requires Sided(s)
    ensures Sided(Step(s, e))
    ensures Step(s, e).console.st.past.overridden <==>
            Overrides(s, e) || (!Silences(s, e) && s.console.st.past.overridden)
    ensures Step(s, e).pad.st.acceptedIncoming <==>
            Accepts(s, e) || (!PadCompletes(s, e) && s.pad.st.acceptedIncoming)
  {
    StepStatus(s, e);
    var me, other := At(s, SideOf(e)).st, Other(s, SideOf(e)).st;
    OwnFlags(me, e);
    OthersFlags(me, other, e);
  }

  lemma {:induction false} FlagsFollowTheRun(s: System, es: seq<SysEvent>)
    requires Begins(s)
    ensures Sided(Run(s, es))
    ensures Run(s, es).console.st.past.overridden <==> Since(s, es, Overrides, Silences)
    ensures Run(s, es).pad.st.acceptedIncoming <==> Since(s, es, Accepts, PadCompletes)
  {
    if es != [] {
      var front, e := es[..|es| - 1], es[|es| - 1];
      FlagsFollowTheRun(s, front);
      FlagsStep(Run(s, front), e);
      Traces.SinceLast(Step, s, es, Overrides, Silences);
      Traces.SinceLast(Step, s, es, Accepts, PadCompletes);
    }
  }

  /**
   * In every interleaving, start-up in either order included, the console radio is told to be deaf exactly
   * while it is suppressed - unless, since the last page silenced it, it lost its link or began to call the
   * console; either switches the scan on without asking.
   */
  lemma DeafOnlyWhileSuppressed(s: System, es: seq<SysEvent>)
    requires Begins(s) && LegalRun(s, es)
    ensures var c := Run(s, es).console;
            var deaf := c.st.scanSuppressed && !Since(s, es, Overrides, Silences);
            && (Asked(c).scan == Some(SCAN_NONE) <==> deaf)
            && (Heard(c, OCF_WRITE_SCAN_ENABLE) ==> (Told(c).scan == Some(SCAN_NONE) <==> deaf))
  {
    InitialIsGood(s);
    RunKeepsInv(s, es);
    FlagsFollowTheRun(s, es);
    var c := Run(s, es).console;
    if Heard(c, OCF_WRITE_SCAN_ENABLE) {
      HeardMeansTold(c, OCF_WRITE_SCAN_ENABLE);
    }
  }

  ghost predicate Early(st: Status) { st.past.calledEarly && st.past.started }

  /** Which of the events for the console's handler matter to the handover's calling, and how. */
  lemma OwnCalling(me: Status, e: SysEvent)
    ensures var t := Own(me, e).st;
            if e.HandOver? && me.side.ToConsole? && me.link.connection == 0 then
              t.past.calledEarly == !me.past.started && t.past.started == me.past.started
            else
              && t.past.calledEarly == me.past.calledEarly && t.past.started == (me.past.started || e.Starts?)
              && (t.handoverSince.Some? ==> t.handoverSince == me.handoverSince)
  {
    if e.Complete? && e.status != 0 {
      PageMissedFrame(me.(acceptedIncoming := false), e.status, e.addr, e.now);
      assert !me.acceptedIncoming ==> me.(acceptedIncoming := false) == me;
    }
  }

  lemma EarlyStep(s: System, e: SysEvent)
    requires SysInv(s) && LegalEvent(s, e)
    ensures var before, after := s.console.st, Step(s, e).console.st;
            after.handoverSince.Some? ==>
              if ConsoleStarts(s, e) then Early(after)
              else if Calls(s, e) then !Early(after)
              else before.handoverSince.Some? && (Early(after) <==> Early(before))
  {
    StepStatus(s, e);
    OwnCalling(s.console.st, e);
    OthersFlags(s.pad.st, s.console.st, e);
  }

  lemma {:induction false} EarlinessFollowsTheRun(s: System, es: seq<SysEvent>)
    requires Begins(s) && LegalRun(s, es)
    ensures var st := Run(s, es).console.st;
            st.handoverSince.Some? ==> (Early(st) <==> Since(s, es, ConsoleStarts, Calls))
  {
    if es != [] {
      var front, e := es[..|es| - 1], es[|es| - 1];
      Traces.RunLast(Step, LegalEvent, s, es);
      EarlinessFollowsTheRun(s, front);
      InitialIsGood(s);
      RunKeepsInv(s, front);
      EarlyStep(Run(s, front), e);
      Traces.SinceLast(Step, s, es, ConsoleStarts, Calls);
    }
  }

  /**
   * In every run, once the last command for it has been written, the console radio was last told the long page
   * timeout exactly while the calling that follows a handover lasts - and start-up has not come after the
   * handover.
   */
  lemma LongPagesOnlyDuringHandover(s: System, es: seq<SysEvent>)
    requires Begins(s) && LegalRun(s, es)
    ensures var c := Run(s, es).console;
            Heard(c, OCF_WRITE_PAGE_TIMEOUT) ==>
              (Told(c).timeout == Some(TIMEOUT_HANDOVER) <==>
                 c.st.handoverSince.Some? && !Since(s, es, ConsoleStarts, Calls))
  {
    InitialIsGood(s);
    RunKeepsInv(s, es);
    EarlinessFollowsTheRun(s, es);
    var c := Run(s, es).console;
    if Heard(c, OCF_WRITE_PAGE_TIMEOUT) {
      HeardMeansTold(c, OCF_WRITE_PAGE_TIMEOUT);
    }
  }

  // ------------------------------------------------------- whose failure it was

  /**
   * What a failed attempt on the pad's side should do to a suppressed console radio: ours ends the suppression,
   * theirs does not.
   */
  ghost predicate DoneRight(closes: Attempt, before: Handler, after: Handler) {
    if closes.TheirCall? then after == before
    else !after.st.scanSuppressed && Asked(after).scan == Some(SCAN_PAGE_ONLY)
  }

  /**
   * For every run that has left the console radio suppressed and every failed attempt that ends it: the
   * suppression is left alone exactly when a call has been accepted since the last Connection Complete, and
   * lifted otherwise. So the failure of an accepted call leaves it alone if and only if no other Connection
   * Complete was read since the latest acceptance, and that of our own page lifts it if and only if one was,
   * or nothing was accepted.
   */
  lemma FailureIsTakenForTheLatestAcceptance(s: System, es: seq<SysEvent>,
                                             status: byte, addr: Addr, handle: u16, closes: Attempt, now: int)
    requires Begins(s) && LegalRun(s, es) && status != 0 && Run(s, es).console.st.scanSuppressed
    ensures var before := Run(s, es);
            var after := Step(before, Complete(ToPad, status, addr, handle, closes, now));
            var accepted := Since(s, es, Accepts, PadCompletes);
            && (after.console == before.console <==> accepted)
            && (DoneRight(closes, before.console, after.console) <==> (closes.TheirCall? <==> accepted))
  {
    InitialIsGood(s);
    RunKeepsInv(s, es);
    FlagsFollowTheRun(s, es);
    var c := Run(s, es).console;
    SendingPushes(c.port, c.accepts, [Scan(SCAN_PAGE_ONLY)], now);
    AfterTwo(Asked(c), Scan(SCAN_PAGE_ONLY), Scan(SCAN_PAGE_ONLY));
  }

  /** While our page is out the pad calls and is accepted; then our page misses. */
  function CallAndMiss(pad: Addr, now: int): seq<SysEvent> {
    [Called(ToPad, pad, now)] + [Complete(ToPad, PAGE_TIMEOUT, pad, 0, OurPage, now)]
  }

  /** The pad's handler is paging for the borrowed address, and the console's radio is silenced for it. */
  ghost predicate PagingForThePad(s: System) {
    && SysInv(s) && s.pad.st.past.started && s.pad.st.link.connection == 0 && s.pad.st.retry.due.None?
    && s.pad.st.addrs.bt == s.console.st.addrs.spoof && s.console.st.addrs.spoof != UNSET
    && s.console.st.scanSuppressed && Asked(s.console).scan == Some(SCAN_NONE)
  }

  lemma CallIsAccepted(s: System, now: int)
    requires PagingForThePad(s)
    ensures var t := Step(s, Called(ToPad, s.pad.st.addrs.bt, now));
            SysInv(t) && t.console == s.console && t.pad.st == s.pad.st.(acceptedIncoming := true)
  {
    StepKeepsInv(s, Called(ToPad, s.pad.st.addrs.bt, now));
  }

  lemma PageMisses(s: System, now: int)
    requires SysInv(s) && s.pad.st.past.started && s.pad.st.acceptedIncoming
    requires s.pad.st.retry.due.None? && s.pad.st.addrs.bt != UNSET
    ensures var t := Step(s, Complete(ToPad, PAGE_TIMEOUT, s.pad.st.addrs.bt, 0, OurPage, now));
            && SysInv(t) && t.console == s.console
            && t.pad.st == s.pad.st.(acceptedIncoming := false, retry := s.pad.st.retry.(due := Some(now + 3000)))
  {
    StepKeepsInv(s, Complete(ToPad, PAGE_TIMEOUT, s.pad.st.addrs.bt, 0, OurPage, now));
  }

  /** The first half: our page misses, and that is taken for the end of the pad's call. */
  lemma MissedPageIsTakenForTheCall(s: System, now: int)
    requires PagingForThePad(s)
    ensures var es := CallAndMiss(s.pad.st.addrs.bt, now);
            var t := Run(s, es);
            && LegalRun(s, es) && SysInv(t) && t.console == s.console
            && t.pad.st == s.pad.st.(acceptedIncoming := false, retry := s.pad.st.retry.(due := Some(now + 3000)))
  {
    var pad := s.pad.st.addrs.bt;
    var a := Called(ToPad, pad, now);
    CallIsAccepted(s, now);
    PageMisses(Step(s, a), now);
    FirstTwo(s, a, Complete(ToPad, PAGE_TIMEOUT, pad, 0, OurPage, now));
  }

  lemma FirstTwo(s: System, a: SysEvent, b: SysEvent)
    requires LegalEvent(s, a) && LegalEvent(Step(s, a), b)
    ensures LegalRun(s, [a] + [b]) && Run(s, [a] + [b]) == Step(Step(s, a), b) && Run(s, [a]) == Step(s, a)
  {
    assert [] + [a] == [a];
    Traces.RunOneMore(Step, LegalEvent, s, [], a);
    Traces.RunOneMore(Step, LegalEvent, s, [a], b);
  }

  /** The pad's handler may page for the borrowed address. */
  ghost predicate MayPage(t: System, pad: Addr) {
    && SysInv(t) && t.pad.st.past.started && t.pad.st.link.connection == 0 && !t.pad.st.acceptedIncoming
    && t.pad.st.addrs.bt == t.console.st.addrs.spoof == pad && pad != UNSET
  }

  /** The second half: the next page silences the console's radio again. */
  lemma NextPageSilences(t: System, pad: Addr, now: int)
    requires MayPage(t, pad)
    ensures var paging := Step(t, TimerFires(ToPad, now));
            && SysInv(paging) && paging.console.st.scanSuppressed && !paging.pad.st.acceptedIncoming
            && paging.pad.st.past.started
            && Asked(paging.console).scan == Some(SCAN_NONE)
            && paging.pad.port.pushed == t.pad.port.pushed + [CreateConn(pad)]
  {
    var c, e := t.console, TimerFires(ToPad, now);
    StepStatus(t, e);
    SendingPushes(t.pad.port, t.pad.accepts, Paging(pad), now);
    SendingPushes(c.port, c.accepts, [Scan(SCAN_NONE)], now);
    AfterTwo(Asked(c), Scan(SCAN_NONE), Scan(SCAN_NONE));
    OwnFits(t.pad.st, Asked(t.pad), e);
    OthersFit(t.pad.st, c.st, Asked(c), e);
    ApplyKeepsGood(t.pad, Own(t.pad.st, e), now);
    ApplyKeepsGood(c, Others(t.pad.st, c.st, e), now);
  }

  /** And the failure of the pad's call lifts that, while our side sends nothing. */
  lemma FailedCallLifts(paging: System, pad: Addr, now: int)
    requires SysInv(paging) && paging.console.st.scanSuppressed && !paging.pad.st.acceptedIncoming
    ensures var after := Step(paging, Complete(ToPad, 0x10, pad, 0, TheirCall, now));
            && after.pad.port.pushed == paging.pad.port.pushed
            && !after.console.st.scanSuppressed && Asked(after.console).scan == Some(SCAN_PAGE_ONLY)
  {
    var c := paging.console;
    SendingPushes(c.port, c.accepts, [Scan(SCAN_PAGE_ONLY)], now);
    AfterTwo(Asked(c), Scan(SCAN_PAGE_ONLY), Scan(SCAN_PAGE_ONLY));
  }

  lemma TwoMore(s: System, es: seq<SysEvent>, a: SysEvent, b: SysEvent)
    requires LegalRun(s, es) && LegalEvent(Run(s, es), a) && LegalEvent(Step(Run(s, es), a), b)
    ensures LegalRun(s, es + [a] + [b])
    ensures Run(s, es + [a]) == Step(Run(s, es), a) && Run(s, es + [a] + [b]) == Step(Step(Run(s, es), a), b)
  {
    Traces.RunOneMore(Step, LegalEvent, s, es, a);
    Traces.RunOneMore(Step, LegalEvent, s, es + [a], b);
  }

  /**
   * The flag is one bit, and any failure takes it. Our page misses and leaves the console radio deaf with
   * nothing being paged; the next page goes out, and the failure of the pad's call switches the scan on under
   * it: nothing has closed that page.
   */
  lemma CrossingCallsAreMistaken(s: System, now: int)
    requires PagingForThePad(s)
    ensures var pad := s.pad.st.addrs.bt;
            var toMiss := CallAndMiss(pad, now);
            var toPage := toMiss + [TimerFires(ToPad, now + 3000)];
            var toFail := toPage + [Complete(ToPad, 0x10, pad, 0, TheirCall, now + 3000)];
            var missed, paging, after := Run(s, toMiss), Run(s, toPage), Run(s, toFail);
            && LegalRun(s, toFail)
            && missed.console == s.console
            && Asked(paging.console).scan == Some(SCAN_NONE)
            && paging.pad.port.pushed == missed.pad.port.pushed + [CreateConn(pad)]
            && after.pad.port.pushed == paging.pad.port.pushed
            && !after.console.st.scanSuppressed && Asked(after.console).scan == Some(SCAN_PAGE_ONLY)
  {
    var pad := s.pad.st.addrs.bt;
    var toMiss, page := CallAndMiss(pad, now), TimerFires(ToPad, now + 3000);
    MissedPageIsTakenForTheCall(s, now);
    NextPageSilences(Run(s, toMiss), pad, now + 3000);
    TwoMore(s, toMiss, page, Complete(ToPad, 0x10, pad, 0, TheirCall, now + 3000));
    FailedCallLifts(Run(s, toMiss + [page]), pad, now + 3000);
  }

  /** Start-up of the two handlers, in either order. */
  function StartsInOrder(consoleFirst: bool, first: int, second: int): seq<SysEvent> {
    if consoleFirst then [Starts(ToConsole, first)] + [Starts(ToPad, second)]
    else [Starts(ToPad, first)] + [Starts(ToConsole, second)]
  }

  lemma StartsOne(s: System, side: Side, now: int)
    requires SysInv(s) && !At(s, side).st.past.started
    ensures var t := Step(s, Starts(side, now));
            && SysInv(t)
            && At(t, side).st == At(s, side).st.(past := At(s, side).st.past.(started := true))
            && Other(t, side).st == WhilePaging(side, Other(s, side).st, At(s, side).st.addrs.bt).st
  {
    StepKeepsInv(s, Starts(side, now));
  }

  /** Wherever the console side has borrowed the pad's address, start-up in either order leads there. */
  lemma StartUpPagesForThePad(s: System, consoleFirst: bool, first: int, second: int)
    requires Begins(s) && s.pad.st.addrs.bt == s.console.st.addrs.spoof && s.console.st.addrs.spoof != UNSET
    ensures var es := StartsInOrder(consoleFirst, first, second);
            LegalRun(s, es) && PagingForThePad(Run(s, es))
  {
    InitialIsGood(s);
    var a, b := if consoleFirst then ToConsole else ToPad, if consoleFirst then ToPad else ToConsole;
    var s1 := Step(s, Starts(a, first));
    StartsOne(s, a, first);
    StartsOne(s1, b, second);
    FirstTwo(s, Starts(a, first), Starts(b, second));
  }

  // --------------------------------------------------- settings that do not last

  /** The suppression can be undone under a page that is still out: the handover switches the scan on regardless. */
  lemma HandoverOverridesSuppression(s: System, addr: Addr, now: int)
    requires SysInv(s) && s.console.st.scanSuppressed && s.console.st.link.connection == 0
    ensures var c := Step(s, HandOver(addr, now)).console;
            c.st.scanSuppressed && Asked(c).scan == Some(SCAN_PAGE_ONLY)
  {
    var c, settings := s.console, [Scan(SCAN_PAGE_ONLY), PageTimeout(TIMEOUT_HANDOVER)];
    SendingPushes(c.port, c.accepts, settings + Paging(addr), now);
    AfterConcat(Asked(c), settings, Paging(addr));
    AfterTwo(Asked(c), Scan(SCAN_PAGE_ONLY), PageTimeout(TIMEOUT_HANDOVER));
    PagingSetsNothing(After(Asked(c), settings), addr);
  }

  /** So does the loss of the console's link. */
  lemma LostConsoleLinkOverridesSuppression(s: System, reason: byte, now: int)
    requires SysInv(s) && s.console.st.past.started && s.console.st.scanSuppressed && s.console.st.link.connection != 0
    ensures var e := Disconnected(ToConsole, s.console.st.link.connection, reason, now);
            var c := Step(s, e).console;
            LegalEvent(s, e) && c.st.scanSuppressed && Asked(c).scan == Some(SCAN_PAGE_ONLY)
  {
    var c := s.console;
    SendingPushes(c.port, c.accepts, [Duty(DUTY_EAGER), Scan(SCAN_PAGE_ONLY)], now);
    AfterTwo(Asked(c), Duty(DUTY_EAGER), Scan(SCAN_PAGE_ONLY));
  }

  lemma ConsoleComesUp(s: System, addr: Addr, handle: u16, now: int)
    requires PagingForThePad(s) && s.console.st.past.started && handle != 0
    ensures var t := Step(s, Complete(ToConsole, 0, addr, handle, TheirCall, now));
            && SysInv(t) && t.console.st.past.started && t.console.st.scanSuppressed
            && t.console.st.link.connection == handle
  {
    StepKeepsInv(s, Complete(ToConsole, 0, addr, handle, TheirCall, now));
    EndHandoverFits(Adopt(s.console.st, handle, addr), Asked(s.console));
  }

  /** Such a state: the pad is being paged when the console calls. */
  lemma SuppressedWithALink(s: System, addr: Addr, handle: u16, first: int, second: int, now: int)
    requires Begins(s) && s.pad.st.addrs.bt == s.console.st.addrs.spoof && s.console.st.addrs.spoof != UNSET
    requires handle != 0
    ensures var es := StartsInOrder(true, first, second) + [Complete(ToConsole, 0, addr, handle, TheirCall, now)];
            var c := Run(s, es).console.st;
            LegalRun(s, es) && c.past.started && c.scanSuppressed && c.link.connection == handle
  {
    InitialIsGood(s);
    StartUpPagesForThePad(s, true, first, second);
    var starts := StartsInOrder(true, first, second);
    StartsOne(s, ToConsole, first);
    StartsOne(Step(s, Starts(ToConsole, first)), ToPad, second);
    FirstTwo(s, Starts(ToConsole, first), Starts(ToPad, second));
    ConsoleComesUp(Run(s, starts), addr, handle, now);
    Traces.RunOneMore(Step, LegalEvent, s, starts, Complete(ToConsole, 0, addr, handle, TheirCall, now));
  }

  /** A handover before start-up has its long page timeout taken away while its calling lasts. */
  lemma EarlyHandoverLosesItsTimeout(s: System, addr: Addr, called: int, started: int)
    requires SysInv(s) && !s.console.st.past.started
    ensures var es := [HandOver(addr, called)] + [Starts(ToConsole, started)];
            && LegalRun(s, es)
            && Run(s, es).console.st.handoverSince == Some(called)
            && Asked(Run(s, es).console).timeout == Some(TIMEOUT_SHORT)
  {
    var a, b := HandOver(addr, called), Starts(ToConsole, started);
    var s1 := Step(s, a);
    assert [] + [a] == [a] && Run(s, []) == s;
    Traces.RunOneMore(Step, LegalEvent, s, [], a);
    StepStatus(s, a);
    StepKeepsInv(s, a);
    Traces.RunOneMore(Step, LegalEvent, s, [a], b);
    StepStatus(s1, b);
    StepKeepsInv(s1, b);
  }

  lemma SecondLinkComes(s: System, second: u16, addr: Addr, closes: Attempt, now: int)
    requires SysInv(s) && s.pad.st.past.started && second != 0
    ensures var t := Step(s, Complete(ToPad, 0, addr, second, closes, now));
            && SysInv(t) && t.pad.st.past.started
            && t.pad.st.link.connection == second && t.pad.st.link.open == s.pad.st.link.open + {second}
  {
    StepKeepsInv(s, Complete(ToPad, 0, addr, second, closes, now));
  }

  lemma LinkGoes(s: System, reason: byte, now: int)
    requires SysInv(s) && s.pad.st.past.started
    ensures var gone := s.pad.st.link.connection;
            var t := Step(s, Disconnected(ToPad, gone, reason, now));
            && SysInv(t) && t.pad.st.past.started
            && t.pad.st.link.connection == 0 && t.pad.st.link.open == s.pad.st.link.open - {gone}
  {
    StepKeepsInv(s, Disconnected(ToPad, s.pad.st.link.connection, reason, now));
  }

  /**
   * "Its link" is the one the handler relays on: after a second link comes and goes, a first one still open does
   * not count.
   */
  lemma AnOpenLinkIsNotEnough(s: System, second: u16, addr: Addr, closes: Attempt, reason: byte, now: int)
    requires SysInv(s) && s.pad.st.past.started && s.pad.st.link.connection != 0
    requires s.pad.st.link.connection in s.pad.st.link.open && second != 0 && second != s.pad.st.link.connection
    ensures var first := s.pad.st.link.connection;
            var up := Step(s, Complete(ToPad, 0, addr, second, closes, now));
            var t := Step(up, Disconnected(ToPad, second, reason, now));
            && first in t.pad.st.link.open && t.pad.st.link.connection == 0
            && Asked(t.pad).duty == Some(DUTY_EAGER)
  {
    SecondLinkComes(s, second, addr, closes, now);
    LinkGoes(Step(s, Complete(ToPad, 0, addr, second, closes, now)), reason, now);
  }

  // ----------------------------------------------------- the same thing, in place

  class BluetoothHandler {
    const side: Side
    const port: CommandPort
    var connectionHandle: u16
    var openHandles: set<u16>
    var acceptedIncoming: bool
    var incomingLink: bool
    var onPlayLink: bool
    var scanSuppressed: bool
    var consoleOutputSeen: bool
    var btAddr: Addr
    var spoofAddr: Addr
    var consoleAddr: Addr
    var handoverSince: Option<int>
    var linkPeerAddr: Addr
    var linkSniffing: bool
    var retry: Retry
    ghost var past: Past

    ghost predicate Valid()
      reads this, port
    {
      port.Valid()
    }

    /** What the handler knows, and with its port the whole of it. */
    ghost function Known(): Status
      reads this
    {
      Status(side, Addresses(btAddr, spoofAddr, consoleAddr),
             Link(connectionHandle, openHandles, incomingLink, onPlayLink, consoleOutputSeen,
                  linkPeerAddr, linkSniffing),
             acceptedIncoming, scanSuppressed, handoverSince, retry, past)
    }

    ghost function View(): Handler
      reads this, port, port.cmdQueue
    {
      Handler(Known(), port.View(), port.accepts)
    }

    /** The other handler, if there is one, is another object with another adapter. */
    ghost predicate Apart(other: BluetoothHandler?)
      reads other, if other != null then {other.port} else {}
    {
      other != null ==>
        && this != other && port != other.port && port.cmdQueue != other.port.cmdQueue
        && other.Valid()
    }

    constructor (side: Side, accepts: Oracle, btAddr: Addr, spoofAddr: Addr, consoleAddr: Addr)
      ensures Valid() && fresh(port) && fresh(port.cmdQueue)
      ensures View() == NewHandler(side, accepts, btAddr, spoofAddr, consoleAddr)
    {
      this.side := side;
      port := new CommandPort(accepts);
      connectionHandle, openHandles := 0, {};
      acceptedIncoming, incomingLink, onPlayLink := false, false, false;
      scanSuppressed, consoleOutputSeen := false, false;
      this.btAddr, this.spoofAddr, this.consoleAddr := btAddr, spoofAddr, consoleAddr;
      handoverSince := None;
      linkPeerAddr, linkSniffing := UNSET, false;
      retry, past := Retry(0, None, false), Past(false, false, false);
    }

    /** One more command behind those already sent through the port it started with. */
    method Send(c: Command, now: int, ghost start: Port, ghost sent: seq<Command>)
      requires Valid() && port.View() == Sending(start, port.accepts, sent, now)
      modifies port, port.cmdQueue
      ensures Valid() && port.View() == Sending(start, port.accepts, sent + [c], now)
    {
      SendingOneMore(start, port.accepts, sent, c, now);
      port.DoSendCmd(c, now);
    }

    method SendAll(cs: seq<Command>, now: int, ghost start: Port, ghost sent: seq<Command>)
      requires Valid() && port.View() == Sending(start, port.accepts, sent, now)
      modifies port, port.cmdQueue
      ensures Valid() && port.View() == Sending(start, port.accepts, sent + cs, now)
    {
      assert sent + cs[..0] == sent;
      for i := 0 to |cs|
        invariant Valid() && port.View() == Sending(start, port.accepts, sent + cs[..i], now)
      {
        Send(cs[i], now, start, sent + cs[..i]);
        assert sent + cs[..i] + [cs[i]] == sent + cs[..i + 1];
      }
      assert cs[..|cs|] == cs;
    }

    method SendTogether(cs: seq<Command>, now: int)
      requires Valid()
      modifies port, port.cmdQueue
      ensures Valid() && port.View() == Sending(old(port.View()), port.accepts, cs, now)
    {
      SendAll(cs, now, port.View(), []);
      assert [] + cs == cs;
    }

    method BeSilenced(now: int)
      requires Valid()
      modifies this, port, port.cmdQueue
      ensures Valid() && View() == Apply(old(View()), Silenced(old(Known())), now)
    {
      SendTogether([Scan(SCAN_NONE)], now);
      scanSuppressed := true;
      past := past.(overridden := false);
    }

    method SendConnectionRequest(other: BluetoothHandler?, addr: Addr, now: int,
                                 ghost start: Port, ghost sent: seq<Command>)
      requires Valid() && Apart(other) && port.View() == Sending(start, port.accepts, sent, now)
      modifies port, port.cmdQueue, if other != null then {other, other.port, other.port.cmdQueue} else {}
      ensures Valid() && Apart(other)
      ensures port.View() == Sending(start, port.accepts, sent + Paging(addr), now)
      ensures other != null ==>
                other.View() == Apply(old(other.View()), WhilePaging(side, old(other.Known()), addr), now)
    {
      if addr == UNSET {
        assert sent + [] == sent;
        return;
      }
      if side.ToPad? && other != null && other.spoofAddr != UNSET && addr == other.spoofAddr {
        other.BeSilenced(now);
      }
      Send(CreateConn(addr), now, start, sent);
    }

    method HandleConnectionComplete(other: BluetoothHandler?, status: byte, addr: Addr, handle: u16, now: int)
      requires Valid() && Apart(other)
      modifies this, port, port.cmdQueue, if other != null then {other, other.port, other.port.cmdQueue} else {}
      ensures Valid() && Apart(other)
      ensures View() == Apply(old(View()), ConnectionComplete(old(Known()), status, addr, handle, now), now)
      ensures other != null ==>
                other.View() == Apply(old(other.View()), EndSuppression(old(Known()), old(other.Known()), status), now)
    {
      EndSuppressionOf(other, status, now);
      if status != 0 && acceptedIncoming {
        acceptedIncoming := false;
      }
      if status != 0 {
        HandleConnectionFailure(status, addr, now);
        return;
      }
      LinkUp(handle, addr, now);
    }

    method EndSuppressionOf(other: BluetoothHandler?, status: byte, now: int)
      requires Valid() && Apart(other)
      modifies if other != null then {other, other.port, other.port.cmdQueue} else {}
      ensures Valid() && Apart(other) && View() == old(View())
      ensures other != null ==>
                other.View() == Apply(old(other.View()), EndSuppression(Known(), old(other.Known()), status), now)
    {
      var failedIncoming := status != 0 && acceptedIncoming;
      if !failedIncoming && side.ToPad? && other != null && other.scanSuppressed {
        other.scanSuppressed := false;
        other.SendTogether([Scan(SCAN_PAGE_ONLY)], now);
      }
    }

    method EndHandoverPaging(now: int)
      requires Valid()
      modifies this, port, port.cmdQueue
      ensures Valid() && View() == Apply(old(View()), EndHandover(old(Known())), now)
    {
      if handoverSince.None? {
        return;
      }
      handoverSince := None;
      SendTogether([PageTimeout(TIMEOUT_SHORT)], now);
    }

    method ScheduleReconnect(delay: int, now: int)
      modifies this`retry
      ensures Known() == old(Known()).(retry := Schedule(old(retry), delay, now))
    {
      if retry.due.Some? {
        return;
      }
      retry := retry.(due := Some(now + delay));
    }

    method HandleConnectionFailure(status: byte, addr: Addr, now: int)
      requires Valid()
      modifies this, port, port.cmdQueue
      ensures Valid() && View() == Apply(old(View()), PageMissed(old(Known()), status, addr, now), now)
    {
      if btAddr == UNSET || addr != btAddr {
        return;
      }
      if status == PAGE_TIMEOUT || status == REJECTED_PERSONAL || side.ToConsole? {
        if side.ToConsole? {
          MissConsole(status, now);
        } else {
          ScheduleReconnect(3000, now);
        }
      }
    }

    method MissConsole(status: byte, now: int)
      requires Valid()
      modifies this, port, port.cmdQueue
      ensures Valid() && View() == Apply(old(View()), ConsolePageMissed(old(Known()), status, now), now)
    {
      retry := retry.(failures := retry.failures + 1);
      var delay := if retry.failures < 3 then 3000 else if retry.failures < 6 then 10_000 else 20_000;
      if handoverSince.Some? && now - handoverSince.value < HANDOVER_PAGE_WINDOW {
        ScheduleReconnect(if status == PAGE_TIMEOUT then 0 else delay, now);
        return;
      }
      EndHandoverPaging(now);
      ScheduleReconnect(delay, now);
    }

    method StartOver(handle: u16)
      modifies this`consoleOutputSeen, this`linkSniffing, this`onPlayLink
      ensures Known() == old(Known()).(link := Moved(old(Known()).link, handle))
    {
      if connectionHandle != 0 && connectionHandle != handle {
        consoleOutputSeen := false;
        linkSniffing := false;
        onPlayLink := true;
      }
    }

    method AdoptLink(handle: u16, addr: Addr)
      modifies this
      ensures Known() == Adopt(old(Known()), handle, addr)
    {
      StartOver(handle);
      connectionHandle, linkPeerAddr := handle, addr;
      openHandles := openHandles + {handle};
      retry := retry.(failures := 0);
      incomingLink := acceptedIncoming;
      acceptedIncoming := false;
    }

    method LinkUp(handle: u16, addr: Addr, now: int)
      requires Valid()
      modifies this, port, port.cmdQueue
      ensures Valid() && View() == Apply(old(View()), TakeLink(old(Known()), handle, addr), now)
    {
      ghost var start := port.View();
      AdoptLink(handle, addr);
      ghost var sent := EndHandover(Known()).commands;
      EndHandoverPaging(now);
      if side.ToPad? {
        Send(Duty(DUTY_NORMAL), now, start, sent);
      }
      sent := sent + if side.ToPad? then [Duty(DUTY_NORMAL)] else [];
      if incomingLink {
        assert sent + [] == sent;
        return;
      }
      Send(Authenticate(handle), now, start, sent);
    }

    method HandleDisconnectComplete(handle: u16, reason: byte, now: int)
      requires Valid()
      modifies this, port, port.cmdQueue
      ensures Valid() && View() == Apply(old(View()), DisconnectComplete(old(Known()), handle, reason, now), now)
    {
      openHandles := openHandles - {handle};
      if handle != connectionHandle {
        return;
      }
      LoseLink(now);
      if side.ToConsole? && reason == REMOTE_USER {
        ScheduleReconnect(20_000, now);
        return;
      }
      ScheduleReconnect(3000, now);
    }

    method LoseLink(now: int)
      requires Valid()
      modifies this, port, port.cmdQueue
      ensures Valid()
      ensures var was := old(Known());
              var link := was.link.(connection := 0, incoming := false, outputSeen := false, sniffing := false,
                                    onPlay := was.link.onPlay && side.ToPad?);
              Known() == was.(link := link, past := if side.ToPad? then was.past else was.past.(overridden := true))
      ensures var sent := if side.ToPad? then [Duty(DUTY_EAGER)] else [Duty(DUTY_EAGER), Scan(SCAN_PAGE_ONLY)];
              port.View() == Sending(old(port.View()), port.accepts, sent, now)
    {
      ForgetLink();
      SendTogether(if side.ToPad? then [Duty(DUTY_EAGER)] else [Duty(DUTY_EAGER), Scan(SCAN_PAGE_ONLY)], now);
    }

    /** The fields a lost link takes with it. */
    method ForgetLink()
      modifies this
      ensures var was := old(Known());
              var link := was.link.(connection := 0, incoming := false, outputSeen := false, sniffing := false,
                                    onPlay := was.link.onPlay && side.ToPad?);
              Known() == was.(link := link, past := if side.ToPad? then was.past else was.past.(overridden := true))
    {
      connectionHandle, incomingLink, consoleOutputSeen, linkSniffing := 0, false, false, false;
      if side.ToConsole? {
        onPlayLink := false;
        past := past.(overridden := true);
      }
    }

    method HandleModeChange(status: byte, handle: u16, mode: byte)
      modifies this`linkSniffing
      ensures Known() == ModeChange(old(Known()), status, handle, mode).st
    {
      if status != 0 {
        return;
      }
      if handle == connectionHandle {
        linkSniffing := mode == LINK_MODE_SNIFF;
      }
    }

    /** handle_cmd_status; `createConn` is whether it is about a Create Connection. */
    method HandleCmdStatus(createConn: bool, status: byte, ncmd: byte, now: int)
      requires Valid()
      modifies this, port, port.cmdQueue
      ensures Valid()
      ensures var answered := OnPort(old(View()), Answers(ncmd, now));
              View() == if createConn && status != 0 then Apply(answered, PageRefusal(old(Known()), status, now), now)
                        else answered
    {
      port.HandleAnswer(ncmd, now);
      if status == 0 {
        return;
      }
      if createConn && status == CONNECTION_EXISTS && connectionHandle != 0 {
        return;
      }
      if !createConn || status != CONNECTION_EXISTS {
        return;
      }
      if !retry.swept {
        retry := retry.(swept := true);
        SendTogether(Sweep(STALE_HANDLES), now);
        ScheduleReconnect(3000, now);
      }
    }

    method HandleConnRequest(addr: Addr, now: int)
      requires Valid()
      modifies this, port, port.cmdQueue
      ensures Valid() && View() == Apply(old(View()), ConnectionRequest(old(Known()), addr), now)
    {
      var expected := if side.ToPad? then btAddr else consoleAddr;
      if expected == UNSET || addr[1..] != expected[1..] {
        SendTogether([RejectConn(addr)], now);
        return;
      }
      acceptedIncoming := true;
      SendTogether([AcceptConn(addr)], now);
    }

    method ReconnectTimer(other: BluetoothHandler?, now: int)
      requires Valid() && Apart(other)
      modifies this, port, port.cmdQueue, if other != null then {other, other.port, other.port.cmdQueue} else {}
      ensures Valid() && Apart(other)
      ensures View() == Apply(old(View()), Reconnect(old(Known())), now)
      ensures other != null ==>
                var change := Others(old(Known()), old(other.Known()), TimerFires(side, now));
                other.View() == Apply(old(other.View()), change, now)
    {
      retry := retry.(due := None);
      if connectionHandle != 0 {
        return;
      }
      SendConnectionRequest(other, btAddr, now, port.View(), []);
      assert [] + Paging(btAddr) == Paging(btAddr);
    }

    method CallConsole(other: BluetoothHandler?, addr: Addr, now: int)
      requires Valid() && Apart(other)
      modifies this, port, port.cmdQueue, if other != null then {other, other.port, other.port.cmdQueue} else {}
      ensures Valid() && Apart(other)
      ensures View() == Apply(old(View()), ConnectToConsole(old(Known()), addr, now), now)
      ensures other != null ==> other.View() == old(other.View())
    {
      if !side.ToConsole? || connectionHandle != 0 {
        return;
      }
      ghost var start := port.View();
      BecomeReachable(addr, now);
      SendConnectionRequest(other, btAddr, now, start, [Scan(SCAN_PAGE_ONLY), PageTimeout(TIMEOUT_HANDOVER)]);
    }

    /** The half of connect_to_console before the page. */
    method BecomeReachable(addr: Addr, now: int)
      requires Valid()
      modifies this, port, port.cmdQueue
      ensures Valid()
      ensures var was := old(Known());
              Known() == was.(addrs := was.addrs.(console := addr, bt := addr), handoverSince := Some(now),
                              past := was.past.(overridden := true, calledEarly := !was.past.started))
      ensures port.View() == Sending(old(port.View()), port.accepts,
                                     [Scan(SCAN_PAGE_ONLY), PageTimeout(TIMEOUT_HANDOVER)], now)
    {
      consoleAddr, btAddr := addr, addr;
      handoverSince := Some(now);
      past := past.(overridden := true, calledEarly := !past.started);
      SendTogether([Scan(SCAN_PAGE_ONLY), PageTimeout(TIMEOUT_HANDOVER)], now);
    }

    /** apply_console_side_identity. */
    method ApplyConsoleSideIdentity(now: int, ghost start: Port, ghost sent: seq<Command>)
      requires Valid() && port.View() == Sending(start, port.accepts, sent, now)
      modifies port, port.cmdQueue
      ensures Valid() && port.View() == Sending(start, port.accepts, sent + Identity(Known()), now)
    {
      var cs := Spoof(spoofAddr) + [CLASS_OF_DEVICE, INQUIRY_RESPONSE];
      if !scanSuppressed {
        cs := cs + [Scan(SCAN_PAGE_ONLY)];
      }
      SendAll(cs, now, start, sent);
    }

    /** The start of handle(), once the controller has been reset. */
    method Begin(other: BluetoothHandler?, now: int)
      requires Valid() && Apart(other)
      modifies this, port, port.cmdQueue, if other != null then {other, other.port, other.port.cmdQueue} else {}
      ensures Valid() && Apart(other)
      ensures View() == Apply(old(View()), StartUp(old(Known())), now)
      ensures other != null ==>
                other.View() == Apply(old(other.View()), WhilePaging(side, old(other.Known()), old(btAddr)), now)
    {
      SendFirst(other, START_UP, now);
      past := past.(started := true);
    }

    method SendFirst(other: BluetoothHandler?, common: seq<Command>, now: int)
      requires Valid() && Apart(other)
      modifies port, port.cmdQueue, if other != null then {other, other.port, other.port.cmdQueue} else {}
      ensures Valid() && Apart(other)
      ensures port.View() == Sending(old(port.View()), port.accepts, common + SideSettings(Known()), now)
      ensures other != null ==>
                other.View() == Apply(old(other.View()), WhilePaging(side, old(other.Known()), btAddr), now)
    {
      ghost var start := port.View();
      SendTogether(common, now);
      ApplySideSettings(other, now, start, common);
    }

    /** apply_side_settings, and on the pad's side the first page. */
    method ApplySideSettings(other: BluetoothHandler?, now: int, ghost start: Port, ghost sent: seq<Command>)
      requires Valid() && Apart(other) && port.View() == Sending(start, port.accepts, sent, now)
      modifies port, port.cmdQueue, if other != null then {other, other.port, other.port.cmdQueue} else {}
      ensures Valid() && Apart(other)
      ensures port.View() == Sending(start, port.accepts, sent + SideSettings(Known()), now)
      ensures other != null ==>
                other.View() == Apply(old(other.View()), WhilePaging(side, old(other.Known()), btAddr), now)
    {
      if side.ToConsole? {
        ApplyConsoleSideIdentity(now, start, sent);
        return;
      }
      Send(Scan(SCAN_PAGE_ONLY), now, start, sent);
      SendConnectionRequest(other, btAddr, now, start, sent + [Scan(SCAN_PAGE_ONLY)]);
      assert sent + [Scan(SCAN_PAGE_ONLY)] + Paging(btAddr) == sent + ([Scan(SCAN_PAGE_ONLY)] + Paging(btAddr));
    }

    method NoteConsoleOutput(now: int)
      requires Valid()
      modifies this, port, port.cmdQueue
      ensures Valid() && View() == Apply(old(View()), ConsoleOutput(old(Known())), now)
    {
      if !consoleOutputSeen {
        consoleOutputSeen := true;
        if onPlayLink {
          SendTogether([Duty(DUTY_NORMAL)], now);
        }
      }
    }
  }
}
