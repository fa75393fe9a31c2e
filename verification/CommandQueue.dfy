/**
 * HCI commands under the controller's own flow control (src/bluetooth/HciCommandQueue.h), and the code that
 * feeds and empties the queue (src/bluetooth/HciCommands.cpp).
 *
 * `Queue` is the queue itself. `Port` adds the history of one adapter: what was pushed, what became of every
 * command taken off, what the controller last allowed. Whether the socket takes a write is an oracle over
 * the write's number.
 */
module CommandQueue {
  import opened Bytes
  import Traces

  datatype Command = Command(ogf: u16, ocf: u16, param: seq<byte>)

  datatype Queue = Queue(queue: seq<Command>, credits: nat, held: bool, awaiting: bool, lastWrite: int, timeout: int)

  const EMPTY := Queue([], 1, false, false, 0, 2000)

  predicate CanSend(q: Queue) { !q.held && q.credits != 0 && q.queue != [] }

  function Written(q: Queue, now: int): Queue {
    if q.queue == [] then q
    else q.(queue := q.queue[1..], credits := Max(0, q.credits - 1), lastWrite := now, awaiting := true)
  }

  function Dropped(q: Queue): Queue { if q.queue == [] then q else q.(queue := q.queue[1..]) }

  function Answered(q: Queue, ncmd: byte): Queue { q.(credits := ncmd, awaiting := false) }

  predicate Overdue(q: Queue, now: int) { q.awaiting && q.credits == 0 && now - q.lastWrite > q.timeout }

  function GivenUp(q: Queue): Queue { q.(awaiting := false, credits := 1) }

  // ------------------------------------------------------------ one adapter's port

  /** A command taken off the queue, whether the socket took it, and when. */
  datatype Outcome = Outcome(command: Command, written: bool, at: int)

  datatype Port = Port(q: Queue, pushed: seq<Command>, taken: seq<Outcome>,
                       grant: nat, spent: nat, allowance: Option<nat>)

  const FRESH := Port(EMPTY, [], [], 1, 0, None)

  type Oracle = nat -> bool

  /** One turn of the pump: the front command is written, or dropped if the write fails. */
  function PumpOnce(p: Port, accepts: Oracle, now: int): Port
    requires CanSend(p.q)
  {
    var ok := accepts(|p.taken|);
    p.(q := if ok then Written(p.q, now) else Dropped(p.q),
       taken := p.taken + [Outcome(p.q.queue[0], ok, now)],
       spent := if ok then p.spent + 1 else p.spent)
  }

  /** pump_commands: its measure is the length of the queue. */
  function Pump(p: Port, accepts: Oracle, now: int): Port
    decreases |p.q.queue|
  {
    if CanSend(p.q) then Pump(PumpOnce(p, accepts, now), accepts, now) else p
  }

  function Push(p: Port, c: Command): Port {
    p.(q := p.q.(queue := p.q.queue + [c]), pushed := p.pushed + [c])
  }

  function Grant(p: Port, ncmd: byte): Port {
    p.(q := Answered(p.q, ncmd), grant := ncmd, spent := 0, allowance := Some(ncmd))
  }

  function SetHeld(p: Port, held: bool): Port { p.(q := p.q.(held := held)) }

  /** send_cmd. */
  function SendCmd(p: Port, c: Command, accepts: Oracle, now: int): Port { Pump(Push(p, c), accepts, now) }

  /** A Command Complete or Command Status. */
  function Answer(p: Port, ncmd: byte, accepts: Oracle, now: int): Port { Pump(Grant(p, ncmd), accepts, now) }

  /** One tick of watch_commands. */
  function Watch(p: Port, accepts: Oracle, now: int): Port {
    if Overdue(p.q, now) then Pump(p.(q := GivenUp(p.q), grant := 1, spent := 0), accepts, now) else p
  }

  datatype Event =
    | Send(c: Command, now: int)
    | Answers(ncmd: byte, now: int)
    | Tick(now: int)
    | ResetBegins
    | ResetCompletes(ncmd: byte, now: int)
    | ResetFails(now: int)

  function Step(p: Port, e: Event, accepts: Oracle): Port {
    match e
    case Send(c, now) => SendCmd(p, c, accepts, now)
    case Answers(n, now) => Answer(p, n, accepts, now)
    case Tick(now) => Watch(p, accepts, now)
    case ResetBegins => SetHeld(p, true)
    case ResetCompletes(n, now) => Pump(SetHeld(Grant(p, n), false), accepts, now)
    case ResetFails(now) => Pump(SetHeld(p, false), accepts, now)
  }

  function Run(p: Port, es: seq<Event>, accepts: Oracle): Port
    decreases es
  {
    if es == [] then p else Run(Step(p, es[0], accepts), es[1..], accepts)
  }

  function Commands(outcomes: seq<Outcome>): seq<Command> {
    seq(|outcomes|, i requires 0 <= i < |outcomes| => outcomes[i].command)
  }

  // ---------------------------------------------------------------------- safety

  /** When the last command that reached the controller was written. */
  function LastWritten(outcomes: seq<Outcome>): Option<int> {
    if outcomes == [] then None
    else if outcomes[|outcomes| - 1].written then Some(outcomes[|outcomes| - 1].at)
    else LastWritten(outcomes[..|outcomes| - 1])
  }

  /**
   * Every pushed command is, in order, either taken off - written, or lost to a failed write - or still
   * queued; writes since the last grant and the credits left add up to the grant; an answer is awaited exactly
   * when something was written since then, and the time kept is that of the last write; and a queue without
   * credits is either waiting for an answer or was told to wait.
   */
  ghost predicate PortInv(p: Port) {
    && p.pushed == Commands(p.taken) + p.q.queue
    && p.q.credits + p.spent == p.grant
    && (p.q.awaiting <==> p.spent > 0)
    && (p.q.awaiting ==> LastWritten(p.taken) == Some(p.q.lastWrite))
    && (p.q.credits == 0 ==> p.q.awaiting || p.allowance == Some(0))
  }

  /** Nothing can go out: that is how every event leaves the queue. */
  predicate Settled(p: Port) { !CanSend(p.q) }

  lemma {:induction false} PumpKeepsInv(p: Port, accepts: Oracle, now: int)
    requires PortInv(p)
    ensures var t := Pump(p, accepts, now);
            && PortInv(t) && Settled(t)
            && p.taken <= t.taken
            && t.pushed == p.pushed && t.q.held == p.q.held && t.grant == p.grant
            && t.allowance == p.allowance && t.q.timeout == p.q.timeout
            && (CanSend(p.q) ==> |t.taken| > |p.taken|)
            && (!CanSend(p.q) ==> t == p)
    decreases |p.q.queue|
  {
    if CanSend(p.q) {
      var p1 := PumpOnce(p, accepts, now);
      assert Commands(p1.taken) == Commands(p.taken) + [p.q.queue[0]];
      assert p1.taken[..|p.taken|] == p.taken;
      PumpKeepsInv(p1, accepts, now);
    }
  }

  lemma StepKeepsInv(p: Port, e: Event, accepts: Oracle)
    requires PortInv(p) && Settled(p)
    ensures PortInv(Step(p, e, accepts)) && Settled(Step(p, e, accepts))
    ensures p.taken <= Step(p, e, accepts).taken
  {
    match e
    case Send(c, now) => PumpKeepsInv(Push(p, c), accepts, now);
    case Answers(n, now) => PumpKeepsInv(Grant(p, n), accepts, now);
    case Tick(now) =>
      if Overdue(p.q, now) {
        PumpKeepsInv(p.(q := GivenUp(p.q), grant := 1, spent := 0), accepts, now);
      }
    case ResetBegins =>
    case ResetCompletes(n, now) => PumpKeepsInv(SetHeld(Grant(p, n), false), accepts, now);
    case ResetFails(now) => PumpKeepsInv(SetHeld(p, false), accepts, now);
  }

  lemma {:induction false} RunKeepsInv(p: Port, es: seq<Event>, accepts: Oracle)
    requires PortInv(p) && Settled(p)
    ensures PortInv(Run(p, es, accepts)) && Settled(Run(p, es, accepts))
    decreases es
  {
    if es != [] {
      StepKeepsInv(p, es[0], accepts);
      RunKeepsInv(Step(p, es[0], accepts), es[1..], accepts);
    }
  }

  /** Over every run: nothing overtakes, nothing is lost but failed writes, and no grant is exceeded. */
  lemma CommandsLeaveInOrderWithinGrants(es: seq<Event>, accepts: Oracle)
    ensures var p := Run(FRESH, es, accepts);
            && p.pushed == Commands(p.taken) + p.q.queue
            && p.spent <= p.grant
  {
    RunKeepsInv(FRESH, es, accepts);
  }

  predicate Releases(e: Event) { e.ResetCompletes? || e.ResetFails? }

  function Stepper(accepts: Oracle): (Port, Event) -> Port { (p: Port, e: Event) => Step(p, e, accepts) }

  lemma {:induction false} RunIsTrace(p: Port, es: seq<Event>, accepts: Oracle)
    ensures Run(p, es, accepts) == Traces.Run(Stepper(accepts), p, es)
    decreases es
  {
    if es != [] {
      RunIsTrace(Step(p, es[0], accepts), es[1..], accepts);
      Traces.RunFirst(Stepper(accepts), p, es);
    }
  }

  predicate Begins(p: Port, e: Event) { e.ResetBegins? }

  predicate Ends(p: Port, e: Event) { Releases(e) }

  /** A reset is under way. */
  ghost predicate Resetting(es: seq<Event>, accepts: Oracle) { Traces.Since(Stepper(accepts), FRESH, es, Begins, Ends) }

  lemma HoldStep(p: Port, e: Event, accepts: Oracle)
    requires PortInv(p)
    ensures Step(p, e, accepts).q.held <==> e.ResetBegins? || (p.q.held && !e.ResetCompletes? && !e.ResetFails?)
  {
    match e
    case Send(c, now) => PumpKeepsInv(Push(p, c), accepts, now);
    case Answers(n, now) => PumpKeepsInv(Grant(p, n), accepts, now);
    case Tick(now) =>
      if Overdue(p.q, now) {
        PumpKeepsInv(p.(q := GivenUp(p.q), grant := 1, spent := 0), accepts, now);
      }
    case ResetBegins =>
    case ResetCompletes(n, now) => PumpKeepsInv(SetHeld(Grant(p, n), false), accepts, now);
    case ResetFails(now) => PumpKeepsInv(SetHeld(p, false), accepts, now);
  }

  lemma {:induction false} HeldTrace(es: seq<Event>, accepts: Oracle)
    ensures var p := Traces.Run(Stepper(accepts), FRESH, es);
            PortInv(p) && Settled(p) && (p.q.held <==> Resetting(es, accepts))
  {
    if es != [] {
      var front, e := es[..|es| - 1], es[|es| - 1];
      HeldTrace(front, accepts);
      var p := Traces.Run(Stepper(accepts), FRESH, front);
      StepKeepsInv(p, e, accepts);
      HoldStep(p, e, accepts);
      Traces.SinceLast(Stepper(accepts), FRESH, es, Begins, Ends);
    }
  }

  /** In every run the queue is held exactly while a reset that began has neither completed nor failed. */
  lemma HeldExactlyWhileResetting(es: seq<Event>, accepts: Oracle)
    ensures Run(FRESH, es, accepts).q.held <==> Resetting(es, accepts)
  {
    RunIsTrace(FRESH, es, accepts);
    HeldTrace(es, accepts);
  }

  /** A completed reset with an allowance, or a failed one with credits left, moves a queue that has something in it. */
  lemma EndOfResetMovesTheQueue(es: seq<Event>, accepts: Oracle, e: Event)
    requires (e.ResetCompletes? && e.ncmd > 0) || (e.ResetFails? && Run(FRESH, es, accepts).q.credits > 0)
    requires Run(FRESH, es, accepts).q.queue != []
    ensures var p := Run(FRESH, es, accepts);
            |Step(p, e, accepts).taken| > |p.taken|
  {
    RunKeepsInv(FRESH, es, accepts);
    var p := Run(FRESH, es, accepts);
    if e.ResetCompletes? {
      PumpKeepsInv(SetHeld(Grant(p, e.ncmd), false), accepts, e.now);
    } else {
      PumpKeepsInv(SetHeld(p, false), accepts, e.now);
    }
  }

  /** While a reset holds the queue, nothing leaves it: not for an answer, not for the watchdog. */
  lemma {:induction false} NothingLeavesWhileHeld(p: Port, es: seq<Event>, accepts: Oracle)
    requires p.q.held && forall i :: 0 <= i < |es| ==> !Releases(es[i])
    ensures var t := Run(p, es, accepts);
            t.taken == p.taken && t.q.held && p.q.queue <= t.q.queue
    decreases es
  {
    if es != [] {
      var p1 := Step(p, es[0], accepts);
      assert p1.taken == p.taken && p1.q.held && p.q.queue <= p1.q.queue;
      NothingLeavesWhileHeld(p1, es[1..], accepts);
    }
  }

  // -------------------------------------------------------------------- progress

  /**
   * Between events a non-empty queue is waiting for a reset to end or out of credits; out of credits means an
   * answer is awaited, or the last allowance was none; and the wait is counted from the last write.
   */
  lemma WhyNothingMoves(es: seq<Event>, accepts: Oracle)
    ensures var p := Run(FRESH, es, accepts);
            && (p.q.queue != [] ==> Resetting(es, accepts) || p.q.credits == 0)
            && (p.q.credits == 0 ==> p.q.awaiting || p.allowance == Some(0))
            && (p.q.awaiting ==> LastWritten(p.taken) == Some(p.q.lastWrite))
  {
    RunKeepsInv(FRESH, es, accepts);
    HeldExactlyWhileResetting(es, accepts);
  }

  /** A tick of the watchdog moves a stopped queue exactly when an answer is awaited and overdue. */
  lemma WatchdogMovesExactlyTheOverdue(p: Port, accepts: Oracle, now: int)
    requires PortInv(p) && Settled(p) && p.q.queue != [] && !p.q.held
    ensures |Watch(p, accepts, now).taken| > |p.taken| <==> p.q.awaiting && now - p.q.lastWrite > p.q.timeout
  {
    if Overdue(p.q, now) {
      PumpKeepsInv(p.(q := GivenUp(p.q), grant := 1, spent := 0), accepts, now);
    }
  }

  /** The watchdog does not cover an allowance of nought: without another answer nothing ever leaves again. */
  lemma {:induction false} ZeroAllowanceStopsForGood(p: Port, es: seq<Event>, accepts: Oracle)
    requires p.q.credits == 0 && !p.q.awaiting
    requires forall i :: 0 <= i < |es| ==> !es[i].Answers? && !es[i].ResetCompletes?
    ensures Run(p, es, accepts).taken == p.taken
    decreases es
  {
    if es != [] {
      var p1 := Step(p, es[0], accepts);
      assert p1.taken == p.taken && p1.q.credits == 0 && !p1.q.awaiting;
      ZeroAllowanceStopsForGood(p1, es[1..], accepts);
    }
  }

  // ----------------------------------------------------- the same thing, in place

  class HciCommandQueue {
    var queue: seq<Command>
    var credits: byte
    var held: bool
    var awaiting: bool
    var lastWrite: int
    var timeout: int

    function View(): Queue
      reads this
    {
      Queue(queue, credits, held, awaiting, lastWrite, timeout)
    }

    constructor ()
      ensures View() == EMPTY && queue == [] && credits == 1 && !held && !awaiting && timeout == 2000
    {
      queue, credits, held, awaiting, lastWrite, timeout := [], 1, false, false, 0, 2000;
    }

    method PushBack(c: Command)
      modifies this
      ensures View() == old(View()).(queue := old(queue) + [c])
    {
      queue := queue + [c];
    }

    method Next() returns (c: Option<Command>)
      ensures c == if CanSend(View()) then Some(queue[0]) else None
    {
      if held || credits == 0 || queue == [] {
        return None;
      }
      return Some(queue[0]);
    }

    method OnWritten(now: int)
      modifies this
      ensures View() == Written(old(View()), now)
    {
      if queue == [] {
        return;
      }
      queue := queue[1..];
      if credits > 0 {
        credits := credits - 1;
      }
      lastWrite := now;
      awaiting := true;
    }

    method OnDropped()
      modifies this
      ensures View() == Dropped(old(View()))
    {
      if queue != [] {
        queue := queue[1..];
      }
    }

    method OnAnswered(ncmd: byte)
      modifies this
      ensures View() == Answered(old(View()), ncmd)
    {
      credits := ncmd;
      awaiting := false;
    }

    method SetHold(on: bool)
      modifies this
      ensures View() == old(View()).(held := on)
    {
      held := on;
    }

    method GiveUp()
      modifies this
      ensures View() == GivenUp(old(View()))
    {
      awaiting := false;
      credits := 1;
    }
  }

  /** BluetoothHandler's side of the queue; `accepts` says which writes the socket takes. */
  class CommandPort {
    const cmdQueue: HciCommandQueue
    const accepts: Oracle
    var attempts: nat
    ghost var pushed: seq<Command>
    ghost var taken: seq<Outcome>
    ghost var grant: nat
    ghost var spent: nat
    ghost var allowance: Option<nat>

    ghost predicate Valid()
      reads this
    {
      attempts == |taken|
    }

    ghost function View(): Port
      reads this, cmdQueue
    {
      Port(cmdQueue.View(), pushed, taken, grant, spent, allowance)
    }

    constructor (accepts: Oracle)
      ensures Valid() && View() == FRESH && this.accepts == accepts && fresh(cmdQueue)
    {
      cmdQueue := new HciCommandQueue();
      this.accepts := accepts;
      attempts, pushed, taken, grant, spent, allowance := 0, [], [], 1, 0, None;
    }

    method PumpCommands(now: int)
      requires Valid()
      modifies this, cmdQueue
      ensures Valid() && View() == Pump(old(View()), accepts, now)
    {
      var c := cmdQueue.Next();
      while c.Some?
        invariant Valid()
        invariant c == if CanSend(cmdQueue.View()) then Some(cmdQueue.queue[0]) else None
        invariant Pump(View(), accepts, now) == Pump(old(View()), accepts, now)
        decreases |cmdQueue.queue|
      {
        ghost var before := View();
        taken := taken + [Outcome(c.value, accepts(attempts), now)];
        if accepts(attempts) {
          cmdQueue.OnWritten(now);
          spent := spent + 1;
        } else {
          cmdQueue.OnDropped();
        }
        attempts := attempts + 1;
        assert View() == PumpOnce(before, accepts, now);
        c := cmdQueue.Next();
      }
    }

    method DoSendCmd(c: Command, now: int)
      requires Valid()
      modifies this, cmdQueue
      ensures Valid() && View() == SendCmd(old(View()), c, accepts, now)
    {
      cmdQueue.PushBack(c);
      pushed := pushed + [c];
      PumpCommands(now);
    }

    method HandleAnswer(ncmd: byte, now: int)
      requires Valid()
      modifies this, cmdQueue
      ensures Valid() && View() == Answer(old(View()), ncmd, accepts, now)
    {
      cmdQueue.OnAnswered(ncmd);
      grant, spent, allowance := ncmd, 0, Some(ncmd);
      PumpCommands(now);
    }

    method WatchCommands(now: int)
      requires Valid()
      modifies this, cmdQueue
      ensures Valid() && View() == Watch(old(View()), accepts, now)
    {
      if !Overdue(cmdQueue.View(), now) {
        return;
      }
      cmdQueue.GiveUp();
      grant, spent := 1, 0;
      PumpCommands(now);
    }

    /** The first half of reset_controller: the queue is shut before the reset itself is written past it. */
    method BeginReset()
      requires Valid()
      modifies this, cmdQueue
      ensures Valid() && View() == Step(old(View()), ResetBegins, accepts)
    {
      cmdQueue.SetHold(true);
    }

    /** Its second half: `reply` is the allowance in the Command Complete, or nothing when none came. */
    method EndReset(reply: Option<byte>, now: int)
      requires Valid()
      modifies this, cmdQueue
      ensures Valid()
      ensures var e := if reply.Some? then ResetCompletes(reply.value, now) else ResetFails(now);
              View() == Step(old(View()), e, accepts)
    {
      if reply.Some? {
        cmdQueue.OnAnswered(reply.value);
        grant, spent, allowance := reply.value, 0, Some(reply.value);
      }
      cmdQueue.SetHold(false);
      PumpCommands(now);
    }
  }
}
