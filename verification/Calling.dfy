/**
 * Whether a handler without a link will call its peer again (src/bluetooth/HciEvents.cpp, HciCommands.cpp).
 *
 * A call is a Create Connection in the handler's own queue: it can be waiting there, be written, or be lost to a
 * failed write. What ends it is read off the run.
 */
module Calling {
  import opened Bytes
  import opened Handlers
  import CommandQueue
  import Traces

  // ---------------------------------------------------------------------- the call

  /** A handler that has no link and no timer running, though it knows whom to call. */
  predicate Idle(st: Status) {
    && st.link.connection == 0 && st.addrs.bt != UNSET && st.retry.due.None?
    && (st.side.ToPad? ==> st.past.started)
  }

  function PageOf(addr: Addr): CommandQueue.Command -> bool { c => c == CreateConn(addr) }

  /** Where in everything pushed the last Create Connection for the peer is. */
  function LastCall(h: Handler): Option<nat> { LastWhere(h.port.pushed, PageOf(h.st.addrs.bt)) }

  /** It is still queued, or it reached the controller. */
  predicate Stands(h: Handler) {
    match LastCall(h)
    case Some(k) => k < |h.port.taken| ==> h.port.taken[k].written
    case None => false
  }

  /** Its write failed, and it was dropped. */
  predicate Lost(h: Handler) {
    match LastCall(h)
    case Some(k) => k < |h.port.taken| && !h.port.taken[k].written
    case None => false
  }

  // ---------------------------------------------------------------- what happens to it

  /** The commands pushed between two states of a handler. */
  function Pushed(before: Handler, after: Handler): seq<CommandQueue.Command> {
    if |before.port.pushed| <= |after.port.pushed| then after.port.pushed[|before.port.pushed|..] else []
  }

  /** A Create Connection for the peer is pushed. */
  function Pages(side: Side): Happening {
    (s: System, e: SysEvent) =>
      CreateConn(At(Step(s, e), side).st.addrs.bt) in Pushed(At(s, side), At(Step(s, e), side))
  }

  /** A Connection Complete for the peer is read. */
  function Completes(side: Side): Happening {
    (s: System, e: SysEvent) => e.Complete? && e.side == side && e.addr == At(s, side).st.addrs.bt
  }

  /** A Command Status refuses a Create Connection. */
  function Refuses(side: Side): Happening { (s: System, e: SysEvent) => e.PageRefused? && e.side == side }

  /** A failure that the pad's side does not answer with another page. */
  predicate NotRetried(me: Status, e: SysEvent) {
    && me.side.ToPad? && e.Complete? && e.addr == me.addrs.bt
    && e.status != 0 && e.status != PAGE_TIMEOUT && e.status != REJECTED_PERSONAL
  }

  function GivesUp(side: Side): Happening {
    (s: System, e: SysEvent) => e.Complete? && e.side == side && NotRetried(At(s, side).st, e)
  }

  /** The last call stands, and neither a Connection Complete nor a refusal has been read since it was pushed. */
  ghost predicate CallOut(s: System, es: seq<SysEvent>, side: Side) {
    && Stands(At(Run(s, es), side))
    && !Since(s, es, Completes(side), Pages(side))
    && !Since(s, es, Refuses(side), Pages(side))
  }

  // -------------------------------------------------------------------- every step

  /** What an event pushes through the port of one side. */
  function NewCommands(s: System, e: SysEvent, side: Side): seq<CommandQueue.Command> {
    if e.OnQueue? then (if e.side == side && e.e.Send? then [e.e.c] else [])
    else if SideOf(e) == side then Own(At(s, side).st, e).commands
    else Others(At(s, SideOf(e)).st, At(s, side).st, e).commands
  }

  lemma ApplyPushes(h: Handler, c: Change, now: int)
    requires Good(h)
    ensures Apply(h, c, now).port.pushed == h.port.pushed + c.commands
  {
    SendingPushes(h.port, h.accepts, c.commands, now);
  }

  lemma RefusalPushes(h: Handler, ncmd: byte, c: Change, now: int)
    requires Good(h)
    ensures Apply(OnPort(h, CommandQueue.Answers(ncmd, now)), c, now).port.pushed == h.port.pushed + c.commands
  {
    var q := CommandQueue.Answers(ncmd, now);
    QueueEventKeepsGood(h, q);
    QueueEventPushes(h.port, q, h.accepts);
    assert h.port.pushed + [] == h.port.pushed;
    ApplyPushes(OnPort(h, q), c, now);
  }

  lemma StepPushes(s: System, e: SysEvent, side: Side)
    requires SysInv(s)
    ensures At(Step(s, e), side).port.pushed == At(s, side).port.pushed + NewCommands(s, e, side)
  {
    var h, me, other := At(s, side), At(s, SideOf(e)), Other(s, SideOf(e));
    assert h.port.pushed + [] == h.port.pushed;
    if e.OnQueue? {
      QueueEventPushes(h.port, e.e, h.accepts);
    } else if e.PageRefused? {
      RefusalPushes(me, e.ncmd, Own(me.st, e), e.now);
    } else if SideOf(e) == side {
      ApplyPushes(me, Own(me.st, e), e.now);
    } else {
      ApplyPushes(other, Others(me.st, other.st, e), e.now);
    }
  }

  lemma PagesPushes(s: System, e: SysEvent, side: Side)
    requires SysInv(s)
    ensures Pages(side)(s, e) <==> CreateConn(At(Step(s, e), side).st.addrs.bt) in NewCommands(s, e, side)
  {
    StepPushes(s, e, side);
    var before, after := At(s, side).port.pushed, At(Step(s, e), side).port.pushed;
    assert after[|before|..] == NewCommands(s, e, side);
  }

  /** The change leaves a handler idle only by paging, or where it was idle with the same peer. */
  predicate IdleOnlyIf(me: Status, c: Change) {
    Idle(c.st) ==> CreateConn(c.st.addrs.bt) in c.commands || (Idle(me) && c.st.addrs.bt == me.addrs.bt)
  }

  /** A Connection Complete for the peer leaves a handler idle only when it is not to be retried. */
  lemma CompleteLeavesIdle(me: Status, e: SysEvent)
    requires e.Complete? && (e.status == 0 ==> e.handle != 0)
    ensures IdleOnlyIf(me, Own(me, e))
    ensures Idle(Own(me, e).st) && e.addr == me.addrs.bt ==> NotRetried(me, e)
  {
    if e.status != 0 {
      PageMissedFrame(me.(acceptedIncoming := false), e.status, e.addr, e.now);
      assert !me.acceptedIncoming ==> me.(acceptedIncoming := false) == me;
    }
  }

  lemma StartLeavesIdle(me: Status)
    ensures IdleOnlyIf(me, StartUp(me))
  {
    if me.side.ToPad? && me.addrs.bt != UNSET {
      assert StartUp(me).commands[|START_UP| + 1] == CreateConn(me.addrs.bt);
    }
  }

  lemma HandoverLeavesIdle(me: Status, addr: Addr, now: int)
    ensures IdleOnlyIf(me, ConnectToConsole(me, addr, now))
  {
    if me.side.ToConsole? && me.link.connection == 0 && addr != UNSET {
      assert ConnectToConsole(me, addr, now).commands[2] == CreateConn(addr);
    }
  }

  lemma OwnLeavesIdle(me: Status, e: SysEvent)
    requires e.Complete? && e.status == 0 ==> e.handle != 0
    ensures IdleOnlyIf(me, Own(me, e))
    ensures e.Complete? && Idle(Own(me, e).st) && e.addr == me.addrs.bt ==> NotRetried(me, e)
  {
    match e
    case Complete(_, _, _, _, _, _) => CompleteLeavesIdle(me, e);
    case Starts(_, _) => StartLeavesIdle(me);
    case HandOver(addr, now) => HandoverLeavesIdle(me, addr, now);
    case _ =>
  }

  /**
   * Between two events: an idle handler has made a call, and if a Connection Complete ended it, that one gave it
   * up.
   */
  ghost predicate CallInv(s: System, es: seq<SysEvent>, side: Side) {
    var h := At(Run(s, es), side);
    Idle(h.st) ==>
      && CreateConn(h.st.addrs.bt) in h.port.pushed
      && (Since(s, es, Completes(side), Pages(side)) ==> Since(s, es, GivesUp(side), Pages(side)))
  }

  /** One event, seen from one side. */
  lemma IdleStatusStep(s: System, e: SysEvent, side: Side)
    requires SysInv(s) && LegalEvent(s, e)
    ensures IdleOnlyIf(At(s, side).st, Change(At(Step(s, e), side).st, NewCommands(s, e, side)))
    ensures Completes(side)(s, e) && Idle(At(Step(s, e), side).st) ==> GivesUp(side)(s, e)
  {
    StepStatus(s, e);
    var me, other := At(s, SideOf(e)).st, Other(s, SideOf(e)).st;
    if SideOf(e) == side {
      OwnLeavesIdle(me, e);
    } else {
      OthersFlags(me, other, e);
    }
  }

  lemma IdleStep(s: System, e: SysEvent, side: Side)
    requires SysInv(s) && LegalEvent(s, e)
    ensures var before, after := At(s, side), At(Step(s, e), side);
            && before.port.pushed <= after.port.pushed
            && (Pages(side)(s, e) ==> CreateConn(after.st.addrs.bt) in after.port.pushed)
            && (Idle(after.st) ==>
                  && (Completes(side)(s, e) ==> GivesUp(side)(s, e))
                  && (Pages(side)(s, e) || (Idle(before.st) && after.st.addrs.bt == before.st.addrs.bt)))
  {
    StepPushes(s, e, side);
    PagesPushes(s, e, side);
    IdleStatusStep(s, e, side);
  }

  lemma {:induction false} CallInvHolds(s: System, es: seq<SysEvent>, side: Side)
    requires Begins(s) && LegalRun(s, es)
    ensures CallInv(s, es, side)
  {
    if es != [] {
      var front, e := es[..|es| - 1], es[|es| - 1];
      Traces.RunLast(Step, LegalEvent, s, es);
      CallInvHolds(s, front, side);
      InitialIsGood(s);
      RunKeepsInv(s, front);
      IdleStep(Run(s, front), e, side);
      Traces.SinceLast(Step, s, es, Completes(side), Pages(side));
      Traces.SinceLast(Step, s, es, GivesUp(side), Pages(side));
    }
  }

  // -------------------------------------------------------------------- the claims

  /**
   * In every run, a handler that knows whom to call and has neither link nor timer has a call out if and only if
   * the last one was not lost to a failed write, refused by a Command Status or, on the pad's side, given up on.
   */
  lemma CalledUnlessLostRefusedOrGivenUp(s: System, es: seq<SysEvent>, side: Side)
    requires Begins(s) && LegalRun(s, es)
    ensures var h := At(Run(s, es), side);
            Idle(h.st) ==>
              (CallOut(s, es, side) <==>
                 && !Lost(h)
                 && !Since(s, es, Refuses(side), Pages(side))
                 && !Since(s, es, GivesUp(side), Pages(side)))
  {
    CallInvHolds(s, es, side);
    var h := At(Run(s, es), side);
    LastWhereIs(h.port.pushed, PageOf(h.st.addrs.bt));
    Traces.SinceWeaker(Step, s, es, GivesUp(side), Completes(side), Pages(side));
  }

  // -------------------------------------------------------------- calls that stop

  lemma OneIsDropped(p: CommandQueue.Port, accepts: CommandQueue.Oracle, c: CommandQueue.Command, now: int)
    requires (forall n: nat :: !accepts(n)) && !p.q.held && p.q.credits != 0 && p.q.queue == []
    ensures var t := CommandQueue.SendCmd(p, c, accepts, now);
            t.q == p.q && t.pushed == p.pushed + [c] && t.taken == p.taken + [CommandQueue.Outcome(c, false, now)]
  {
    var dropped := CommandQueue.PumpOnce(CommandQueue.Push(p, c), accepts, now);
    assert dropped.q.queue == [];
    assert CommandQueue.Pump(dropped, accepts, now) == dropped;
  }

  lemma {:induction false} NothingIsWritten(p: CommandQueue.Port, accepts: CommandQueue.Oracle,
                                            cs: seq<CommandQueue.Command>, now: int)
    requires (forall n: nat :: !accepts(n)) && !p.q.held && p.q.credits != 0 && p.q.queue == []
    ensures var t := Sending(p, accepts, cs, now);
            && t.q == p.q && t.pushed == p.pushed + cs
            && |t.taken| == |p.taken| + |cs| && p.taken <= t.taken
            && forall i :: |p.taken| <= i < |t.taken| ==> !t.taken[i].written
    decreases cs
  {
    if cs == [] {
      assert p.pushed + cs == p.pushed;
    } else {
      OneIsDropped(p, accepts, cs[0], now);
      NothingIsWritten(CommandQueue.SendCmd(p, cs[0], accepts, now), accepts, cs[1..], now);
      assert p.pushed + [cs[0]] + cs[1..] == p.pushed + cs;
    }
  }

  /**
   * A socket that takes no write: the handover's call is dropped, nothing is queued, and no timer will make
   * another.
   */
  lemma LostCallIsNotRepeated(s: System, addr: Addr, now: int)
    requires Begins(s) && addr != UNSET && forall n: nat :: !s.console.accepts(n)
    ensures var es := [HandOver(addr, now)];
            var h := At(Run(s, es), ToConsole);
            LegalRun(s, es) && Idle(h.st) && Lost(h) && h.port.q.queue == [] && !CallOut(s, es, ToConsole)
  {
    var e := HandOver(addr, now);
    assert [] + [e] == [e];
    Traces.RunOneMore(Step, LegalEvent, s, [], e);
    var c := s.console;
    var cs := ConnectToConsole(c.st, addr, now).commands;
    NothingIsWritten(c.port, c.accepts, cs, now);
    var h := At(Run(s, [e]), ToConsole);
    assert h.port.pushed[2] == CreateConn(addr);
    LastWhereIs(h.port.pushed, PageOf(addr));
  }

  /** An event that is nothing to do with calling: no start, handover, end of a link or of a call, and no stray page. */
  predicate Unrelated(e: SysEvent, side: Side, peer: Addr) {
    SideOf(e) == side ==>
      && !e.Starts? && !e.HandOver? && !e.Complete? && !e.Disconnected? && !e.PageRefused?
      && (e.OnQueue? && e.e.Send? ==> e.e.c != CreateConn(peer))
  }

  lemma UnrelatedStep(s: System, e: SysEvent, side: Side)
    requires SysInv(s) && LegalEvent(s, e) && Idle(At(s, side).st) && Unrelated(e, side, At(s, side).st.addrs.bt)
    ensures var before, after := At(s, side), At(Step(s, e), side);
            && Idle(after.st) && after.st.addrs.bt == before.st.addrs.bt
            && after.port.pushed == before.port.pushed + NewCommands(s, e, side)
            && CreateConn(before.st.addrs.bt) !in NewCommands(s, e, side)
  {
    StepPushes(s, e, side);
    StepStatus(s, e);
    var me, other := At(s, SideOf(e)).st, Other(s, SideOf(e)).st;
    if SideOf(e) != side {
      OthersFlags(me, other, e);
    }
  }

  /**
   * From then on only something new starts it again: a handover, a link that comes or goes, a late answer to a
   * call.
   */
  lemma {:induction false} IdleStaysIdle(s: System, es: seq<SysEvent>, side: Side)
    requires SysInv(s) && LegalRun(s, es) && Idle(At(s, side).st)
    requires forall i :: 0 <= i < |es| ==> Unrelated(es[i], side, At(s, side).st.addrs.bt)
    ensures var before, after := At(s, side), At(Run(s, es), side);
            && Idle(after.st) && after.st.addrs.bt == before.st.addrs.bt
            && before.port.pushed <= after.port.pushed
            && CreateConn(before.st.addrs.bt) !in after.port.pushed[|before.port.pushed|..]
  {
    if es != [] {
      var front, e := es[..|es| - 1], es[|es| - 1];
      Traces.RunLast(Step, LegalEvent, s, es);
      IdleStaysIdle(s, front, side);
      RunKeepsInv(s, front);
      UnrelatedStep(Run(s, front), e, side);
    }
  }

  /** A refusal other than "connection exists" ends a call, and nothing is scheduled in its place. */
  lemma RefusedCallIsNotRepeated(s: System, es: seq<SysEvent>, side: Side, status: byte, ncmd: byte, now: int)
    requires Begins(s) && LegalRun(s, es) && At(Run(s, es), side).st.past.started && Idle(At(Run(s, es), side).st)
    requires status != 0 && status != CONNECTION_EXISTS
    ensures var more := es + [PageRefused(side, status, ncmd, now)];
            && LegalRun(s, more) && Idle(At(Run(s, more), side).st)
            && Since(s, more, Refuses(side), Pages(side)) && !CallOut(s, more, side)
  {
    var e := PageRefused(side, status, ncmd, now);
    var more := es + [e];
    assert more[..|more| - 1] == es;
    Traces.RunOneMore(Step, LegalEvent, s, es, e);
    StepStatus(Run(s, es), e);
    Traces.SinceLast(Step, s, more, Refuses(side), Pages(side));
  }

  /** Start-up and a handover leave the console's handler so, its call out if the socket takes everything. */
  lemma HandoverCalls(s: System, addr: Addr, first: int, second: int)
    requires Begins(s) && addr != UNSET
    ensures var es := [Starts(ToConsole, first)] + [HandOver(addr, second)];
            LegalRun(s, es) && At(Run(s, es), ToConsole).st.past.started && Idle(At(Run(s, es), ToConsole).st)
  {
    InitialIsGood(s);
    StartsOne(s, ToConsole, first);
    FirstTwo(s, Starts(ToConsole, first), HandOver(addr, second));
    StepStatus(Step(s, Starts(ToConsole, first)), HandOver(addr, second));
  }
}
