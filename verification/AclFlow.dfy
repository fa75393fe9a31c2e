/**
 * ACL credits (src/bluetooth/AclFlowControl.h and handle_num_completed_packets in
 * src/bluetooth/HciEvents.cpp).
 *
 * `Flow` is the state of one AclFlowControl and the functions over it are its
 * operations; the class performs them in place. `World` puts the controller the
 * credits are about next to it, so that whole runs can be compared with what
 * the controller really holds.
 */
module AclFlow {
  import opened Bytes

  // ------------------------------------------------------------ walking the map

  /** The walk of the map that the running total replaces. */
  ghost function Sum(m: map<u16, nat>): nat
    decreases m.Keys
  {
    if m == map[] then 0
    else
      var h :| h in m;
      m[h] + Sum(m - {h})
  }

  lemma {:induction false} SumRemove(m: map<u16, nat>, h: u16)
    requires h in m
    ensures Sum(m) == m[h] + Sum(m - {h})
    decreases m.Keys
  {
    var k :| k in m && Sum(m) == m[k] + Sum(m - {k});
    if k != h {
      SumRemove(m - {k}, h);
      SumRemove(m - {h}, k);
      assert m - {k} - {h} == m - {h} - {k};
    }
  }

  lemma SumUpdate(m: map<u16, nat>, h: u16, n: nat)
    ensures Sum(m[h := n]) == Sum(m) - Count(m, h) + n
  {
    SumRemove(m[h := n], h);
    assert m[h := n] - {h} == m - {h};
    if h in m {
      SumRemove(m, h);
    } else {
      assert m - {h} == m;
    }
  }

  lemma {:induction false} SumMonotone(a: map<u16, nat>, b: map<u16, nat>)
    requires forall h <- a :: h in b && a[h] <= b[h]
    ensures Sum(a) <= Sum(b)
    decreases a.Keys
  {
    if a != map[] {
      var h :| h in a && Sum(a) == a[h] + Sum(a - {h});
      SumMonotone(a - {h}, b - {h});
      SumRemove(b, h);
    }
  }

  function Count(m: map<u16, nat>, h: u16): nat { if h in m then m[h] else 0 }

  // ----------------------------------------------------------------- operations

  datatype Flow = Flow(
    maxPackets: u16,
    depth: int,
    writeOffAfter: int,
    inFlight: map<u16, nat>,
    total: int,
    lastCompletion: int)

  /** The running total is the walk of the map. */
  ghost predicate FlowInv(f: Flow) { f.total == Sum(f.inFlight) }

  function Sent(f: Flow, h: u16): Flow {
    f.(inFlight := f.inFlight[h := Count(f.inFlight, h) + 1], total := f.total + 1)
  }

  function Completed(f: Flow, h: u16, done: nat, now: int): Flow {
    if h !in f.inFlight then f
    else
      var left := Max(0, f.inFlight[h] - done);
      f.(inFlight := f.inFlight[h := left], total := f.total - (f.inFlight[h] - left), lastCompletion := now)
  }

  function Disconnected(f: Flow, h: u16): Flow {
    if h in f.inFlight then f.(total := f.total - f.inFlight[h], inFlight := f.inFlight - {h}) else f
  }

  function Budget(f: Flow): int {
    if f.maxPackets == 0 then f.depth else Min(f.depth, f.maxPackets - 1)
  }

  /** Blocked for longer than the threshold since the last completion. */
  predicate WritesOff(f: Flow, now: int) {
    f.maxPackets != 0 && f.total > 0 && now - f.lastCompletion > f.writeOffAfter
  }

  /** has_room(): the answer, and the state it leaves behind - a write-off forgets everything in flight. */
  function Room(f: Flow, now: int): (Flow, bool) {
    if f.maxPackets == 0 then (f, true)
    else if WritesOff(f, now) then (f.(inFlight := map[], total := 0, lastCompletion := now), true)
    else (f, f.total < Budget(f))
  }

  // ------------------------------------------------ the total refines the map walk

  lemma SentKeepsTotal(f: Flow, h: u16)
    requires FlowInv(f)
    ensures FlowInv(Sent(f, h))
  {
    SumUpdate(f.inFlight, h, Count(f.inFlight, h) + 1);
  }

  lemma CompletedKeepsTotal(f: Flow, h: u16, done: nat, now: int)
    requires FlowInv(f)
    ensures FlowInv(Completed(f, h, done, now))
  {
    if h in f.inFlight {
      SumUpdate(f.inFlight, h, Max(0, f.inFlight[h] - done));
    }
  }

  lemma DisconnectedKeepsTotal(f: Flow, h: u16)
    requires FlowInv(f)
    ensures FlowInv(Disconnected(f, h))
  {
    if h in f.inFlight {
      SumRemove(f.inFlight, h);
    }
  }

  /**
   * A metered link that is told "room" has room within its budget - provided there is a budget. The one way
   * past an empty budget is the write-off, which answers yes before the budget is looked at.
   */
  lemma RoomMeansBudget(f: Flow, now: int)
    requires FlowInv(f) && f.maxPackets != 0 && Room(f, now).1
    ensures Room(f, now).0.total < Budget(f) <==> f.maxPackets >= 2 && f.depth >= 1
    ensures f.maxPackets >= 2 && f.depth >= 1 ==> Sent(Room(f, now).0, 0).total <= Budget(f) <= f.maxPackets - 1
  {
  }

  /** Blocked past the threshold: something is in flight, and nothing has completed for longer than that. */
  predicate Stalled(f: Flow, now: int) { f.total > 0 && now - f.lastCompletion > f.writeOffAfter }

  /**
   * When the answer is yes, in the fields alone: an unknown pool, a stall - and then all is forgotten and the
   * timer starts over - or a total below both the depth and the pool less one. Only a stall changes anything.
   */
  lemma RoomIsExactly(f: Flow, now: int)
    ensures var (g, ok) := Room(f, now);
            && (ok <==> f.maxPackets == 0 || Stalled(f, now) || (f.total < f.depth && f.total < f.maxPackets - 1))
            && g == if f.maxPackets != 0 && Stalled(f, now)
                    then f.(inFlight := map[], total := 0, lastCompletion := now) else f
  {
  }

  /** A pool of one buffer keeps that buffer in reserve - until one ungated frame is written off. */
  lemma PoolOfOneStillSends()
    ensures var f := Sent(Flow(1, 2, 3, map[], 0, 0), 7);
            FlowInv(f) && Budget(f) == 0 && !Room(f, 3).1 && Room(f, 4).1
  {
    assert Sum(map[]) == 0;
    SentKeepsTotal(Flow(1, 2, 3, map[], 0, 0), 7);
  }

  // ------------------------------------------- a whole Number Of Completed Packets

  datatype Entry = Entry(handle: u16, done: u16)

  /** The {handle, packets} pairs present in an event body whose first byte is the pair count. */
  function EntriesFrom(body: seq<byte>, i: nat): (es: seq<Entry>)
    requires |body| >= 1
    ensures |es| == Max(0, Min(body[0], (|body| - 1) / 4) - i)
    ensures forall k :: 0 <= k < |es| ==>
              es[k] == Entry(Word(body, 1 + 4 * (i + k)), Word(body, 3 + 4 * (i + k)))
    decreases body[0] - i
  {
    if i < body[0] && 1 + 4 * i + 4 <= |body| then
      var rest := EntriesFrom(body, i + 1);
      var es := [Entry(Word(body, 1 + 4 * i), Word(body, 3 + 4 * i))] + rest;
      assert forall k :: 1 <= k < |es| ==>
          es[k] == rest[k - 1] == Entry(Word(body, 1 + 4 * (i + 1 + (k - 1))), Word(body, 3 + 4 * (i + 1 + (k - 1))));
      es
    else []
  }

  function CompleteAll(f: Flow, es: seq<Entry>, now: int): Flow
    decreases es
  {
    if es == [] then f
    else CompleteAll(Completed(f, es[0].handle, es[0].done, now), es[1..], now)
  }

  /** All the buffers an event frees on one link. */
  function Freed(es: seq<Entry>, h: u16): nat {
    if es == [] then 0 else (if es[0].handle == h then es[0].done else 0) + Freed(es[1..], h)
  }

  /** An event leaves each link at what it had less everything freed on it, and never below zero. */
  lemma {:induction false} CompleteAllExact(f: Flow, es: seq<Entry>, now: int)
    requires FlowInv(f)
    ensures var g := CompleteAll(f, es, now);
            && FlowInv(g)
            && g.inFlight.Keys == f.inFlight.Keys
            && (forall h <- f.inFlight :: g.inFlight[h] == Max(0, f.inFlight[h] - Freed(es, h)))
    decreases es
  {
    if es != [] {
      var f1 := Completed(f, es[0].handle, es[0].done, now);
      CompletedKeepsTotal(f, es[0].handle, es[0].done, now);
      assert f1.inFlight.Keys == f.inFlight.Keys;
      CompleteAllExact(f1, es[1..], now);
    }
  }

  /** The stall timer restarts exactly when some pair names a link with packets counted on it. */
  lemma {:induction false} CompleteAllTimer(f: Flow, es: seq<Entry>, now: int)
    ensures var g := CompleteAll(f, es, now);
            && g.lastCompletion == (if exists e :: e in es && e.handle in f.inFlight then now else f.lastCompletion)
            && g == f.(inFlight := g.inFlight, total := g.total, lastCompletion := g.lastCompletion)
    decreases es
  {
    if es != [] {
      var f1 := Completed(f, es[0].handle, es[0].done, now);
      assert f1.inFlight.Keys == f.inFlight.Keys;
      CompleteAllTimer(f1, es[1..], now);
      assert es[0] in es;
      assert forall e :: e in es <==> e == es[0] || e in es[1..];
    }
  }

  lemma {:induction false} FreedRemove(es: seq<Entry>, i: nat, h: u16)
    requires i < |es|
    ensures Freed(es, h) == Freed(es[..i] + es[i + 1..], h) + if es[i].handle == h then es[i].done else 0
  {
    if i == 0 {
      assert es[..0] + es[1..] == es[1..];
    } else {
      FreedRemove(es[1..], i - 1, h);
      assert (es[..i] + es[i + 1..])[1..] == es[1..][..i - 1] + es[1..][i..];
    }
  }

  lemma RemoveFromBoth(a: seq<Entry>, b: seq<Entry>, i: nat)
    requires a != [] && i < |b| && b[i] == a[0] && multiset(a) == multiset(b)
    ensures multiset(a[1..]) == multiset(b[..i] + b[i + 1..])
  {
    assert a == [a[0]] + a[1..];
    assert b == b[..i] + [b[i]] + b[i + 1..];
    assert multiset(b) == multiset(b[..i] + b[i + 1..]) + multiset{b[i]};
    assert multiset(a) == multiset(a[1..]) + multiset{a[0]};
    assert multiset(a[1..]) == multiset(a) - multiset{a[0]};
  }

  lemma {:induction false} FreedOfPermutation(a: seq<Entry>, b: seq<Entry>, h: u16)
    requires multiset(a) == multiset(b)
    ensures Freed(a, h) == Freed(b, h)
    decreases a
  {
    if a == [] {
      assert |multiset(b)| == 0;
    } else {
      assert a[0] in multiset(b);
      var i :| 0 <= i < |b| && b[i] == a[0];
      RemoveFromBoth(a, b, i);
      FreedRemove(b, i, h);
      FreedOfPermutation(a[1..], b[..i] + b[i + 1..], h);
    }
  }

  /** The order of the pairs in an event makes no difference to anything. */
  lemma EntryOrderIsIrrelevant(f: Flow, a: seq<Entry>, b: seq<Entry>, now: int)
    requires FlowInv(f) && multiset(a) == multiset(b)
    ensures CompleteAll(f, a, now) == CompleteAll(f, b, now)
  {
    CompleteAllExact(f, a, now);
    CompleteAllExact(f, b, now);
    CompleteAllTimer(f, a, now);
    CompleteAllTimer(f, b, now);
    assert forall e :: e in a ==> e in multiset(b);
    assert forall e :: e in b ==> e in multiset(a);
    forall h | h in f.inFlight
      ensures CompleteAll(f, a, now).inFlight[h] == CompleteAll(f, b, now).inFlight[h]
    {
      FreedOfPermutation(a, b, h);
    }
    assert CompleteAll(f, a, now).inFlight == CompleteAll(f, b, now).inFlight;
  }

  // --------------------------------------------------------- runs against a radio

  /** A counted completion or a write-off, and when it was. The first mark is the construction. */
  datatype Mark = Mark(at: int, writeOff: bool)

  /**
   * The flow control next to the controller it meters: `held` is what the controller really has per link,
   * `forgiven` the credits written off so far. `inherited` is by how much the total was over the budget when
   * the budget was last set, `ungated` the frames sent without asking since then; both end when the total is
   * within the budget.
   */
  datatype World = World(flow: Flow, held: map<u16, nat>, forgiven: nat, inherited: nat, ungated: nat,
                         marks: seq<Mark>, now: int)

  datatype FlowEvent =
    | Ungated(handle: u16)
    | Gated(handle: u16, writes: bool, at: int)
    | Frees(handle: u16, n: nat, at: int)
    | LinkLost(handle: u16)
    | PoolKnown(packets: u16)
    | DepthSet(depth: int)

  /** Time does not run backwards, and the controller completes only packets it holds. */
  predicate Legal(w: World, e: FlowEvent) {
    match e
    case Gated(_, _, at) => w.now <= at
    case Frees(h, n, at) => w.now <= at && n <= Count(w.held, h)
    case _ => true
  }

  function OneMore(m: map<u16, nat>, h: u16): map<u16, nat> { m[h := Count(m, h) + 1] }

  function Effect(w: World, e: FlowEvent): World
    requires Legal(w, e)
  {
    match e
    case Ungated(h) => w.(flow := Sent(w.flow, h), held := OneMore(w.held, h))
    case Gated(h, writes, at) =>
      var (f, ok) := Room(w.flow, at);
      var w1 := if !WritesOff(w.flow, at) then w.(now := at)
                else w.(now := at, forgiven := w.forgiven + Max(0, w.flow.total), marks := w.marks + [Mark(at, true)]);
      if ok && writes then w1.(flow := Sent(f, h), held := OneMore(w.held, h)) else w1.(flow := f)
    case Frees(h, n, at) =>
      w.(flow := Completed(w.flow, h, n, at),
         held := if h in w.held then w.held[h := w.held[h] - n] else w.held,
         marks := if h in w.flow.inFlight then w.marks + [Mark(at, false)] else w.marks,
         now := at)
    case LinkLost(h) => w.(flow := Disconnected(w.flow, h), held := w.held - {h})
    case PoolKnown(n) => w.(flow := w.flow.(maxPackets := n))
    case DepthSet(d) => w.(flow := w.flow.(depth := d))
  }

  predicate SetsBudget(e: FlowEvent) { e.PoolKnown? || e.DepthSet? }

  /** By how much the total is over the budget. */
  function Excess(f: Flow): nat { Max(0, f.total - Budget(f)) }

  function Next(w: World, e: FlowEvent): World
    requires Legal(w, e)
  {
    var v := Effect(w, e);
    if Excess(v.flow) == 0 then v.(inherited := 0, ungated := 0)
    else if SetsBudget(e) then v.(inherited := Excess(v.flow), ungated := 0)
    else if e.Ungated? then v.(ungated := w.ungated + 1)
    else v
  }

  predicate LegalRun(w: World, es: seq<FlowEvent>)
    decreases es
  {
    es == [] || (Legal(w, es[0]) && LegalRun(Next(w, es[0]), es[1..]))
  }

  function RunWorld(w: World, es: seq<FlowEvent>): World
    requires LegalRun(w, es)
    decreases es
  {
    if es == [] then w else RunWorld(Next(w, es[0]), es[1..])
  }

  function Start(f: Flow, at: int): World {
    var empty := f.(inFlight := map[], total := 0, lastCompletion := at);
    World(empty, map[], 0, Excess(empty), 0, [Mark(at, false)], at)
  }

  /** The credits never claim more than the controller holds, and miss at most what was forgiven. */
  ghost predicate DriftInv(w: World) {
    && FlowInv(w.flow)
    && (forall h <- w.flow.inFlight :: h in w.held && w.flow.inFlight[h] <= w.held[h])
    && w.flow.total <= Sum(w.held) <= w.flow.total + w.forgiven
  }

  ghost predicate Spaced(marks: seq<Mark>, threshold: int) {
    forall i, j :: 0 <= i < j < |marks| && marks[j].writeOff ==> marks[j].at - marks[i].at > threshold
  }

  ghost predicate AllBy(marks: seq<Mark>, at: int) { forall i :: 0 <= i < |marks| ==> marks[i].at <= at }

  ghost predicate SomeWriteOff(marks: seq<Mark>) { exists i :: 0 <= i < |marks| && marks[i].writeOff }

  ghost predicate SpacingInv(w: World) {
    && w.flow.lastCompletion <= w.now
    && AllBy(w.marks, w.flow.lastCompletion)
    && Spaced(w.marks, w.flow.writeOffAfter)
    && (w.forgiven > 0 ==> SomeWriteOff(w.marks))
  }

  /** A pool that keeps a buffer in reserve and still has one to give. */
  predicate Metered(f: Flow) { f.maxPackets >= 2 && f.depth >= 1 }

  ghost predicate ReserveInv(w: World) {
    && (Metered(w.flow) ==> Excess(w.flow) <= w.inherited + w.ungated)
    && (Excess(w.flow) == 0 ==> w.inherited == w.ungated == 0)
  }

  lemma SentKeepsDrift(w: World, h: u16)
    requires DriftInv(w)
    ensures DriftInv(w.(flow := Sent(w.flow, h), held := OneMore(w.held, h)))
  {
    SentKeepsTotal(w.flow, h);
    SumUpdate(w.held, h, Count(w.held, h) + 1);
  }

  lemma FreesKeepsDrift(w: World, e: FlowEvent)
    requires DriftInv(w) && e.Frees? && Legal(w, e)
    ensures DriftInv(Effect(w, e))
  {
    var v, h := Effect(w, e), e.handle;
    CompletedKeepsTotal(w.flow, h, e.n, e.at);
    if h in w.held {
      SumUpdate(w.held, h, w.held[h] - e.n);
    }
    SumMonotone(v.flow.inFlight, v.held);
  }

  lemma LinkLostKeepsDrift(w: World, e: FlowEvent)
    requires DriftInv(w) && e.LinkLost?
    ensures DriftInv(Effect(w, e))
  {
    var v, h := Effect(w, e), e.handle;
    DisconnectedKeepsTotal(w.flow, h);
    if h in w.held {
      SumRemove(w.held, h);
    } else {
      assert w.held - {h} == w.held;
    }
    SumMonotone(v.flow.inFlight, v.held);
  }

  lemma GatedKeepsDrift(w: World, e: FlowEvent)
    requires DriftInv(w) && e.Gated? && Legal(w, e)
    ensures DriftInv(Effect(w, e))
  {
    var v := Effect(w, e);
    assert Sum(map[]) == 0;
    var asked := w.(flow := Room(w.flow, e.at).0, forgiven := v.forgiven, marks := v.marks, now := v.now);
    assert DriftInv(asked);
    SentKeepsDrift(asked, e.handle);
  }

  lemma NextKeepsDrift(w: World, e: FlowEvent)
    requires DriftInv(w) && Legal(w, e)
    ensures DriftInv(Next(w, e))
  {
    match e
    case Ungated(h) => SentKeepsDrift(w, h);
    case Gated(_, _, _) => GatedKeepsDrift(w, e);
    case Frees(_, _, _) => FreesKeepsDrift(w, e);
    case LinkLost(_) => LinkLostKeepsDrift(w, e);
    case PoolKnown(_) =>
    case DepthSet(_) =>
  }

  lemma MarkAppend(marks: seq<Mark>, m: Mark, last: int, threshold: int)
    requires AllBy(marks, last) && Spaced(marks, threshold) && last <= m.at
    requires m.writeOff ==> m.at - last > threshold
    ensures AllBy(marks + [m], m.at) && Spaced(marks + [m], threshold)
    ensures m.writeOff || SomeWriteOff(marks) ==> SomeWriteOff(marks + [m])
  {
    var more := marks + [m];
    assert more[|marks|] == m;
    if SomeWriteOff(marks) {
      var i :| 0 <= i < |marks| && marks[i].writeOff;
      assert more[i].writeOff;
    }
  }

  lemma GatedKeepsSpacing(w: World, e: FlowEvent)
    requires SpacingInv(w) && e.Gated? && Legal(w, e)
    ensures SpacingInv(Effect(w, e))
  {
    if WritesOff(w.flow, e.at) {
      MarkAppend(w.marks, Mark(e.at, true), w.flow.lastCompletion, w.flow.writeOffAfter);
    }
  }

  lemma FreesKeepsSpacing(w: World, e: FlowEvent)
    requires SpacingInv(w) && e.Frees? && Legal(w, e)
    ensures SpacingInv(Effect(w, e))
  {
    if e.handle in w.flow.inFlight {
      MarkAppend(w.marks, Mark(e.at, false), w.flow.lastCompletion, w.flow.writeOffAfter);
    }
  }

  lemma NextKeepsSpacing(w: World, e: FlowEvent)
    requires SpacingInv(w) && Legal(w, e)
    ensures SpacingInv(Next(w, e))
  {
    match e
    case Gated(_, _, _) => GatedKeepsSpacing(w, e);
    case Frees(_, _, _) => FreesKeepsSpacing(w, e);
    case _ => assert SpacingInv(Effect(w, e));
  }

  lemma NextKeepsReserve(w: World, e: FlowEvent)
    requires DriftInv(w) && ReserveInv(w) && Legal(w, e)
    ensures ReserveInv(Next(w, e))
  {
  }

  lemma {:induction false} RunKeepsInvariants(w: World, es: seq<FlowEvent>)
    requires DriftInv(w) && SpacingInv(w) && ReserveInv(w) && LegalRun(w, es)
    ensures var v := RunWorld(w, es);
            DriftInv(v) && SpacingInv(v) && ReserveInv(v) && v.flow.writeOffAfter == w.flow.writeOffAfter
    decreases es
  {
    if es != [] {
      NextKeepsDrift(w, es[0]);
      NextKeepsSpacing(w, es[0]);
      NextKeepsReserve(w, es[0]);
      RunKeepsInvariants(Next(w, es[0]), es[1..]);
    }
  }

  /**
   * Against a controller that completes only what it holds, the credits are never more than the truth and
   * fall short of it by at most what has been written off - so they are exact until the first write-off.
   */
  lemma CreditDriftIsBounded(f: Flow, at: int, es: seq<FlowEvent>)
    requires LegalRun(Start(f, at), es)
    ensures var w := RunWorld(Start(f, at), es);
            && w.flow.total == Sum(w.flow.inFlight)
            && 0 <= Sum(w.held) - w.flow.total <= w.forgiven
            && ((forall i :: 0 <= i < |w.marks| ==> !w.marks[i].writeOff) ==> w.flow.total == Sum(w.held))
  {
    assert Sum(map[]) == 0;
    RunKeepsInvariants(Start(f, at), es);
  }

  /** No write-off comes within the threshold of a counted completion, of an earlier write-off or of the start. */
  lemma WriteOffsAreSpaced(f: Flow, at: int, es: seq<FlowEvent>, i: nat, j: nat)
    requires LegalRun(Start(f, at), es)
    requires i < j < |RunWorld(Start(f, at), es).marks| && RunWorld(Start(f, at), es).marks[j].writeOff
    ensures var marks := RunWorld(Start(f, at), es).marks;
            marks[j].at - marks[i].at > f.writeOffAfter
  {
    assert Sum(map[]) == 0;
    RunKeepsInvariants(Start(f, at), es);
  }

  /**
   * Whenever the pool is known to be two or more, the total is over the budget by at most what it was over
   * when the budget was set and the frames sent since without asking. The pool may become known in the
   * middle of a run, and change.
   */
  lemma OnlyUngatedFramesExceedTheBudget(f: Flow, at: int, es: seq<FlowEvent>)
    requires LegalRun(Start(f, at), es)
    ensures var w := RunWorld(Start(f, at), es);
            Metered(w.flow) ==> && w.flow.total - Budget(w.flow) <= w.inherited + w.ungated
                                && Budget(w.flow) <= w.flow.maxPackets - 1
  {
    assert Sum(map[]) == 0;
    RunKeepsInvariants(Start(f, at), es);
  }

  /**
   * In every run a send is refused only while the controller really holds as many packets as the depth, or all
   * but one of its pool.
   */
  lemma RefusalsAreReal(f: Flow, at: int, es: seq<FlowEvent>, now: int)
    requires LegalRun(Start(f, at), es) && !Room(RunWorld(Start(f, at), es).flow, now).1
    ensures var w := RunWorld(Start(f, at), es);
            && w.flow.maxPackets != 0
            && (Sum(w.held) >= w.flow.depth || Sum(w.held) >= w.flow.maxPackets - 1)
  {
    CreditDriftIsBounded(f, at, es);
    RoomIsExactly(RunWorld(Start(f, at), es).flow, now);
  }

  lemma {:induction false} InheritsNothing(w: World, es: seq<FlowEvent>)
    requires LegalRun(w, es) && w.inherited == 0 && forall i :: 0 <= i < |es| ==> !SetsBudget(es[i])
    ensures RunWorld(w, es).inherited == 0 && Metered(RunWorld(w, es).flow) == Metered(w.flow)
    decreases es
  {
    if es != [] {
      InheritsNothing(Next(w, es[0]), es[1..]);
    }
  }

  /** From the first moment the total is within the budget, until the budget is set again, only ungated frames count. */
  lemma ReserveHoldsOnceWithinBudget(f: Flow, at: int, before: seq<FlowEvent>, after: seq<FlowEvent>)
    requires LegalRun(Start(f, at), before)
    requires var w := RunWorld(Start(f, at), before);
             && LegalRun(w, after) && Metered(w.flow) && w.flow.total <= Budget(w.flow)
             && (forall i :: 0 <= i < |after| ==> !SetsBudget(after[i]))
    ensures var v := RunWorld(RunWorld(Start(f, at), before), after);
            v.flow.total - Budget(v.flow) <= v.ungated
  {
    assert Sum(map[]) == 0;
    var w := RunWorld(Start(f, at), before);
    RunKeepsInvariants(Start(f, at), before);
    RunKeepsInvariants(w, after);
    InheritsNothing(w, after);
  }

  // ----------------------------------------------------- the same thing, in place

  class AclFlowControl {
    var maxPackets: u16
    var depth: int
    var writeOffAfter: int
    var inFlight: map<u16, nat>
    var total: int
    var lastCompletion: int

    function View(): Flow
      reads this
    {
      Flow(maxPackets, depth, writeOffAfter, inFlight, total, lastCompletion)
    }

    ghost predicate Valid()
      reads this
    {
      FlowInv(View())
    }

    /** Times are in milliseconds; the threshold is three seconds. */
    constructor (now: int)
      ensures Valid() && View() == Flow(0, 2, 3000, map[], 0, now)
    {
      maxPackets, depth, writeOffAfter := 0, 2, 3000;
      inFlight, total, lastCompletion := map[], 0, now;
      new;
      assert Sum(map[]) == 0;
    }

    method SetMaxPackets(n: u16)
      requires Valid()
      modifies this
      ensures Valid() && View() == old(View()).(maxPackets := n)
    {
      maxPackets := n;
    }

    method SetDepth(d: int)
      requires Valid()
      modifies this
      ensures Valid() && View() == old(View()).(depth := d)
    {
      depth := d;
    }

    method OnSent(h: u16)
      requires Valid()
      modifies this
      ensures Valid() && View() == Sent(old(View()), h)
    {
      SentKeepsTotal(View(), h);
      inFlight := inFlight[h := (if h in inFlight then inFlight[h] else 0) + 1];
      total := total + 1;
    }

    method OnCompleted(h: u16, done: nat, now: int)
      requires Valid()
      modifies this
      ensures Valid() && View() == Completed(old(View()), h, done, now)
    {
      CompletedKeepsTotal(View(), h, done, now);
      if h !in inFlight {
        return;
      }
      var was := inFlight[h];
      inFlight := inFlight[h := Max(0, was - done)];
      total := total - (was - inFlight[h]);
      lastCompletion := now;
    }

    method OnDisconnect(h: u16)
      requires Valid()
      modifies this
      ensures Valid() && View() == Disconnected(old(View()), h)
    {
      DisconnectedKeepsTotal(View(), h);
      if h in inFlight {
        total := total - inFlight[h];
        inFlight := inFlight - {h};
      }
    }

    /** Constant time, yet it is the sum over every link. */
    method InFlightTotal() returns (n: int)
      requires Valid()
      ensures n == Sum(inFlight)
    {
      n := total;
    }

    method HasRoom(now: int) returns (ok: bool)
      requires Valid()
      modifies this
      ensures Valid() && (View(), ok) == Room(old(View()), now)
      ensures var stalled := old(total) > 0 && now - old(lastCompletion) > writeOffAfter;
              ok <==> maxPackets == 0 || stalled || (old(total) < depth && old(total) < maxPackets - 1)
    {
      if maxPackets == 0 {
        return true;
      }
      if total > 0 {
        var idle := now - lastCompletion;
        if idle > writeOffAfter {
          inFlight := map[];
          total := 0;
          lastCompletion := now;
          assert Sum(map[]) == 0;
          return true;
        }
      }
      return total < Budget(View());
    }

    /** The decoding loop of a Number Of Completed Packets event. */
    method OnCompletedPackets(body: seq<byte>, now: int)
      requires Valid() && |body| >= 1
      modifies this
      ensures Valid() && View() == CompleteAll(old(View()), EntriesFrom(body, 0), now)
    {
      var i: nat := 0;
      while i < body[0]
        invariant Valid() && 0 <= i <= body[0]
        invariant CompleteAll(View(), EntriesFrom(body, i), now) == CompleteAll(old(View()), EntriesFrom(body, 0), now)
      {
        var off := 1 + i * 4;
        if off + 4 > |body| {
          break;
        }
        assert EntriesFrom(body, i)[1..] == EntriesFrom(body, i + 1);
        OnCompleted(Word(body, off), Word(body, off + 2), now);
        i := i + 1;
      }
      assert EntriesFrom(body, i) == [];
    }
  }
}
