/**
 * The input feed's shared page (src/input/InputFeed.h), one writer and lock-free readers on it.
 *
 * Everything either side does to the page is cut into single loads and stores of one cell, and the cells of a
 * block may be copied in any order, so a run is any interleaving of those. The page is sequentially
 * consistent and has one writer for its whole life.
 */
module InputFeed {
  import opened Bytes

  const BODY_LEN := 63
  const MONOTONIC := 63
  const REPORTS := 64
  const LINK_OFF := 65
  const LINK_LEN := 13
  const CELLS := 78
  const EVENTS := 256

  type Body = b: seq<byte> | |b| == 63 witness seq(63, _ => 0)
  type Link = l: seq<int> | |l| == 13 witness seq(13, _ => 0)

  // --------------------------------------------------------------------- buttons

  /** A uint32_t with one bit per button. */
  type Mask = nat

  const BUTTON_COUNT := 19

  /** The d-pad nibble as up 1, right 2, down 4, left 8: clockwise from up, and anything from 8 on is released. */
  function Hat(dpad: nat): (m: nat)
    ensures m < 0x10
  {
    match dpad
    case 0 => 1
    case 1 => 1 + 2
    case 2 => 2
    case 3 => 4 + 2
    case 4 => 4
    case 5 => 4 + 8
    case 6 => 8
    case 7 => 1 + 8
    case _ => 0
  }

  /** pack_buttons. The four fields do not overlap, so or-ing them is adding them. */
  function PackButtons(body: Body): (m: Mask)
    ensures m < 0x8_0000
  {
    Hat(body[7] % 0x10) + 0x10 * (body[7] as int / 0x10) + 0x100 * (body[8] as int) + 0x1_0000 * (body[9] as int % 8)
  }

  /** The d-pad as a direction: one of eight, or released. */
  function Direction(body: Body): nat { if body[7] % 0x10 < 8 then body[7] % 0x10 else 8 }

  lemma HatTellsDirection(a: nat, b: nat)
    requires a < 0x10 && b < 0x10
    ensures Hat(a) == Hat(b) <==> (if a < 8 then a else 8) == if b < 8 then b else 8
  {
  }

  lemma FieldsStayApart(h1: nat, f1: nat, s1: byte, p1: nat, h2: nat, f2: nat, s2: byte, p2: nat)
    requires h1 < 0x10 && h2 < 0x10 && f1 < 0x10 && f2 < 0x10
    ensures h1 + 0x10 * f1 + 0x100 * (s1 as int) + 0x1_0000 * p1 == h2 + 0x10 * f2 + 0x100 * (s2 as int) + 0x1_0000 * p2
            <==> h1 == h2 && f1 == f2 && s1 == s2 && p1 == p2
  {
  }

  /** Any change in what is held, and nothing else, is a change of the mask. */
  lemma MaskTellsWhatIsHeld(a: Body, b: Body)
    ensures PackButtons(a) == PackButtons(b) <==>
            && Direction(a) == Direction(b)
            && a[7] / 0x10 == b[7] / 0x10 && a[8] == b[8] && a[9] % 8 == b[9] % 8
  {
    HatTellsDirection(a[7] % 0x10, b[7] % 0x10);
    FieldsStayApart(Hat(a[7] % 0x10), a[7] / 0x10, a[8], a[9] % 8, Hat(b[7] % 0x10), b[7] / 0x10, b[8], b[9] % 8);
  }

  // -------------------------------------------------------------------- the page

  datatype Cell = Byte(b: byte) | Number(n: int)

  /** The locked block: body, time, count and link, in the order the structure has them. */
  function Content(body: Body, monotonic: int, reports: int, link: Link): (c: seq<Cell>)
    ensures |c| == CELLS
  {
    seq(BODY_LEN, i requires 0 <= i < BODY_LEN => Byte(body[i])) + [Number(monotonic), Number(reports)]
    + seq(LINK_LEN, i requires 0 <= i < LINK_LEN => Number(link[i]))
  }

  function WithLink(cells: seq<Cell>, link: Link): (c: seq<Cell>)
    requires |cells| == CELLS
    ensures |c| == CELLS
  {
    cells[..LINK_OFF] + seq(LINK_LEN, i requires 0 <= i < LINK_LEN => Number(link[i]))
  }

  /**
   * What a publish was asked to put on the page: a report with its time and link block, and the time of day for
   * the press log; or the link block alone.
   */
  datatype Publication = Report(body: Body, monotonic: int, link: Link, stamp: int) | LinkOnly(link: Link)

  function CountOf(cells: seq<Cell>): int
    requires |cells| == CELLS
  {
    if cells[REPORTS].Number? then cells[REPORTS].n else 0
  }

  /** The block behind a publish, given the one before it. */
  function Applied(cells: seq<Cell>, what: Publication): (c: seq<Cell>)
    requires |cells| == CELLS
    ensures |c| == CELLS
  {
    match what
    case Report(body, monotonic, link, _) => Content(body, monotonic, CountOf(cells) + 1, link)
    case LinkOnly(link) => WithLink(cells, link)
  }

  function NewBody(what: Publication): seq<Body> { if what.Report? then [what.body] else [] }

  datatype Event = Event(time: int, buttons: Mask)

  /** The halves of an event that are stored and loaded apart. */
  datatype Field = Time | Buttons

  /** What the writer still has to store: cells of the block, then the fields of an event slot. */
  datatype Writer =
    | Idle
    | Filling(todo: seq<bool>, target: seq<Cell>, what: Publication)
    | Stamping(left: set<Field>, event: Event)

  const ATTEMPTS := 16

  /** One attempt of latest: the sequence number it loaded first and last, and the block it copied in between. */
  datatype Attempt = Attempt(before: nat, after: nat, got: seq<Cell>)

  /** The attempt succeeds: the number was even and has not moved. */
  predicate Settles(t: Attempt) { t.before % 2 == 0 && t.after == t.before }

  /** A call of latest, with the attempts of it that have failed. */
  datatype Reader =
    | Resting
    | Trying(failed: seq<Attempt>)
    | Copying(failed: seq<Attempt>, before: nat, pending: seq<bool>, got: seq<Cell>)

  /** `intact` is whether the slot was not yet being reused at the last load from it. */
  datatype Drainer = Waiting | Draining(head: nat, unread: set<Field>, event: Event, intact: bool)

  datatype Snapshot = Snapshot(publish: nat, cells: seq<Cell>)

  /** An event handed on by drain; `intact` when it was read before the writer began to reuse its slot. */
  datatype Delivery = Delivery(index: nat, event: Event, intact: bool)

  /** History: every finished publish and what it was asked for, the reports and events among them, and what readers got. */
  datatype Past = Past(
    published: seq<seq<Cell>>, publications: seq<Publication>, bodies: seq<Body>, log: seq<Event>,
    snapshots: seq<Snapshot>, gaveUp: seq<seq<Attempt>>, deliveries: seq<Delivery>, lost: nat)

  /** The page, the three threads' places in their code, and the history the claims are about. */
  datatype Page = Page(
    seqno: nat, cells: seq<Cell>, ring: seq<Event>, head: nat,
    writer: Writer, lastButtons: Mask,
    reader: Reader, drainer: Drainer, cursor: nat,
    past: Past)

  datatype Action =
    | BeginPublish(body: Body, monotonic: int, link: Link, stamp: int)
    | BeginLink(link: Link)
    | StoreCell(cell: nat)
    | EndBlock
    | StoreField(field: Field)
    | MoveHead
    | CallLatest
    | LoadSeq
    | LoadCell(cell: nat)
    | CheckSeq
    | LoadHead
    | LoadField(field: Field)
    | Deliver

  /** One mark per cell of the block, for those from `first` on. */
  function From(first: nat): seq<bool> { seq(CELLS, i => i >= first) }

  ghost predicate NoneLeft(marks: seq<bool>) { forall i :: 0 <= i < |marks| ==> !marks[i] }

  function Set(e: Event, f: Field, from: Event): Event {
    if f.Time? then e.(time := from.time) else e.(buttons := from.buttons)
  }

  function Slot(i: nat): (s: nat)
    ensures s < EVENTS
  {
    i % EVENTS
  }

  /** Whether the writer has not yet started on event i + EVENTS, which lives in the slot of event i. */
  predicate Intact(p: Page, i: nat) {
    p.head < i + EVENTS || (p.head == i + EVENTS && !p.writer.Stamping?)
  }

  ghost predicate Enabled(p: Page, a: Action)
    requires Shape(p)
  {
    match a
    case BeginPublish(_, _, _, _) => p.writer.Idle?
    case BeginLink(_) => p.writer.Idle?
    case StoreCell(i) => p.writer.Filling? && i < CELLS && p.writer.todo[i]
    case EndBlock => p.writer.Filling? && NoneLeft(p.writer.todo)
    case StoreField(f) => p.writer.Stamping? && f in p.writer.left
    case MoveHead => p.writer.Stamping? && p.writer.left == {}
    case CallLatest => p.reader.Resting?
    case LoadSeq => p.reader.Trying?
    case LoadCell(i) => p.reader.Copying? && i < CELLS && p.reader.pending[i]
    case CheckSeq => p.reader.Copying? && NoneLeft(p.reader.pending)
    case LoadHead => p.drainer.Waiting?
    case LoadField(f) => p.drainer.Draining? && p.cursor < p.drainer.head && f in p.drainer.unread
    case Deliver => p.drainer.Draining? && (p.cursor < p.drainer.head ==> p.drainer.unread == {})
  }

  const NO_EVENT := Event(0, 0)

  /** The effect of one load or store. */
  ghost function Step(p: Page, a: Action): Page
    requires Shape(p) && Enabled(p, a)
  {
    match a
    case BeginPublish(body, monotonic, link, stamp) =>
      var what := Report(body, monotonic, link, stamp);
      p.(seqno := p.seqno + 1, writer := Filling(From(0), Applied(p.cells, what), what))
    case BeginLink(link) =>
      p.(seqno := p.seqno + 1,
         writer := Filling(From(LINK_OFF), Applied(p.cells, LinkOnly(link)), LinkOnly(link)))
    case StoreCell(i) =>
      p.(cells := p.cells[i := p.writer.target[i]], writer := p.writer.(todo := p.writer.todo[i := false]))
    case EndBlock =>
      AfterBlock(p.(seqno := p.seqno + 1,
                    past := p.past.(published := p.past.published + [p.cells],
                                    publications := p.past.publications + [p.writer.what])),
                 p.writer)
    case StoreField(f) =>
      p.(ring := p.ring[Slot(p.head) := Set(p.ring[Slot(p.head)], f, p.writer.event)],
         writer := p.writer.(left := p.writer.left - {f}))
    case MoveHead =>
      p.(head := p.head + 1, past := p.past.(log := p.past.log + [p.writer.event]), writer := Idle)
    case CallLatest => p.(reader := Trying([]))
    case LoadSeq =>
      if p.seqno % 2 == 1 then AfterFailure(p, p.reader.failed + [Attempt(p.seqno, p.seqno, [])])
      else p.(reader := Copying(p.reader.failed, p.seqno, From(0), Zeroed()))
    case LoadCell(i) =>
      p.(reader := p.reader.(pending := p.reader.pending[i := false], got := p.reader.got[i := p.cells[i]]))
    case CheckSeq =>
      if p.seqno != p.reader.before then
        AfterFailure(p, p.reader.failed + [Attempt(p.reader.before, p.seqno, p.reader.got)])
      else p.(reader := Resting,
              past := p.past.(snapshots := p.past.snapshots + [Snapshot(p.reader.before / 2, p.reader.got)]))
    case LoadHead =>
      var cursor := if p.head < p.cursor then 0 else p.cursor;
      var skip := if p.head - cursor > EVENTS then p.head - cursor - EVENTS else 0;
      p.(drainer := Draining(p.head, {Time, Buttons}, NO_EVENT, true), cursor := cursor + skip,
         past := p.past.(lost := p.past.lost + skip))
    case LoadField(f) =>
      p.(drainer := p.drainer.(unread := p.drainer.unread - {f},
                               event := Set(p.drainer.event, f, p.ring[Slot(p.cursor)]),
                               intact := Intact(p, p.cursor)))
    case Deliver =>
      if p.cursor == p.drainer.head then p.(drainer := Waiting)
      else
        var d := Delivery(p.cursor, p.drainer.event, p.drainer.intact);
        p.(past := p.past.(deliveries := p.past.deliveries + [d]),
           cursor := p.cursor + 1,
           drainer := p.drainer.(unread := {Time, Buttons}, event := NO_EVENT, intact := true))
  }

  /** The next attempt, or none after the sixteenth. */
  function AfterFailure(p: Page, failed: seq<Attempt>): Page {
    if |failed| < ATTEMPTS then p.(reader := Trying(failed))
    else p.(reader := Resting, past := p.past.(gaveUp := p.past.gaveUp + [failed]))
  }

  /** The end of publish: an event only when the buttons changed. */
  function AfterBlock(p: Page, w: Writer): Page
    requires w.Filling?
  {
    if w.what.LinkOnly? then p.(writer := Idle)
    else
      var buttons := PackButtons(w.what.body);
      var p1 := p.(past := p.past.(bodies := p.past.bodies + [w.what.body]));
      if buttons == p.lastButtons then p1.(writer := Idle)
      else p1.(lastButtons := buttons, writer := Stamping({Time, Buttons}, Event(w.what.stamp, buttons)))
  }

  /** Sizes, and indices in range: what a step needs to be taken at all. */
  ghost predicate Shape(p: Page) {
    && |p.cells| == CELLS && |p.ring| == EVENTS
    && (p.writer.Filling? ==> |p.writer.target| == |p.writer.todo| == CELLS)
    && (p.reader.Copying? ==> |p.reader.pending| == |p.reader.got| == CELLS)
    && (p.drainer.Draining? ==> p.cursor <= p.drainer.head)
  }

  ghost predicate IsRun(p: Page, actions: seq<Action>)
    requires Shape(p)
    decreases actions
  {
    actions == [] ||
    (Enabled(p, actions[0]) && (StepKeepsShape(p, actions[0]); IsRun(Step(p, actions[0]), actions[1..])))
  }

  ghost function Run(p: Page, actions: seq<Action>): Page
    requires Shape(p) && IsRun(p, actions)
    decreases actions
  {
    if actions == [] then p else StepKeepsShape(p, actions[0]); Run(Step(p, actions[0]), actions[1..])
  }

  lemma StepKeepsShape(p: Page, a: Action)
    requires Shape(p) && Enabled(p, a)
    ensures Shape(Step(p, a))
  {
  }

  ghost function Fresh(cells: seq<Cell>, ring: seq<Event>): Page {
    Page(0, cells, ring, 0, Idle, 0, Resting, Waiting, 0,
         Past([cells], [], [], [], [], [], [], 0))
  }

  function Zeroed(): seq<Cell> { Content(seq(BODY_LEN, _ => 0), 0, 0, seq(LINK_LEN, _ => 0)) }

  // --------------------------------------------------------------- the sequence lock

  /** Even and settled, or odd with a block half written. */
  ghost predicate LockInv(p: Page)
    requires Shape(p)
  {
    && p.past.published != []
    && match p.writer
       case Filling(todo, target, _) =>
         && p.seqno == 2 * (|p.past.published| - 1) + 1
         && forall i :: 0 <= i < CELLS && !todo[i] ==> p.cells[i] == target[i]
       case _ => p.seqno == 2 * (|p.past.published| - 1) && p.cells == p.past.published[|p.past.published| - 1]
  }

  /** What a reader has copied is one publish's content for as long as the number it started from stands. */
  ghost predicate ReaderInv(p: Page)
    requires Shape(p)
  {
    p.reader.Copying? ==>
      && p.reader.before % 2 == 0 && p.reader.before <= p.seqno
      && p.reader.before / 2 < |p.past.published|
      && |p.past.published[p.reader.before / 2]| == CELLS
      && (p.seqno == p.reader.before ==>
            forall i :: 0 <= i < CELLS && !p.reader.pending[i] ==>
              p.reader.got[i] == p.past.published[p.reader.before / 2][i])
      && NoneAfter(p.past.snapshots, p.reader.before)
  }

  /** A failed attempt found the block locked, or saw a publish begin while it copied. */
  ghost predicate Unlucky(failed: seq<Attempt>) {
    forall i :: 0 <= i < |failed| ==> failed[i].before % 2 == 1 || failed[i].before < failed[i].after
  }

  /** The numbers the attempts met never go back. */
  ghost predicate Onward(failed: seq<Attempt>, seqno: nat) {
    && (forall i :: 0 <= i < |failed| ==> failed[i].before <= failed[i].after <= seqno)
    && (forall i, j :: 0 <= i < j < |failed| ==> failed[i].after <= failed[j].before)
  }

  /** A call is never past its sixteenth attempt, and gives up only on sixteen failures. */
  ghost predicate TriesInv(p: Page) {
    && (!p.reader.Resting? ==>
          && |p.reader.failed| < ATTEMPTS && Unlucky(p.reader.failed)
          && Onward(p.reader.failed, if p.reader.Trying? then p.seqno else p.reader.before))
    && (p.reader.Copying? ==> p.reader.before <= p.seqno)
    && AllUnlucky(p.past.gaveUp, p.seqno)
  }

  ghost predicate AllUnlucky(gaveUp: seq<seq<Attempt>>, seqno: nat) {
    forall i :: 0 <= i < |gaveUp| ==> |gaveUp[i]| == ATTEMPTS && Unlucky(gaveUp[i]) && Onward(gaveUp[i], seqno)
  }

  ghost predicate AllWhole(snapshots: seq<Snapshot>, published: seq<seq<Cell>>) {
    forall i :: 0 <= i < |snapshots| ==>
      snapshots[i].publish < |published| && snapshots[i].cells == published[snapshots[i].publish]
  }

  ghost predicate NoneAfter(snapshots: seq<Snapshot>, seqno: nat) {
    forall i :: 0 <= i < |snapshots| ==> 2 * snapshots[i].publish <= seqno
  }

  ghost predicate Ordered(snapshots: seq<Snapshot>) {
    forall i, j :: 0 <= i < j < |snapshots| ==> snapshots[i].publish <= snapshots[j].publish
  }

  ghost predicate SnapshotsInv(p: Page) {
    AllWhole(p.past.snapshots, p.past.published) && NoneAfter(p.past.snapshots, p.seqno) && Ordered(p.past.snapshots)
  }

  /** A published block belongs together: its count n says which report its body is. */
  ghost predicate Coherent(cells: seq<Cell>, bodies: seq<Body>) {
    && |cells| == CELLS
    && cells[REPORTS].Number? && 0 <= cells[REPORTS].n <= |bodies|
    && (cells[REPORTS].n > 0 ==> forall i :: 0 <= i < BODY_LEN ==> cells[i] == Byte(bodies[cells[REPORTS].n - 1][i]))
  }

  ghost predicate AllCoherent(published: seq<seq<Cell>>, bodies: seq<Body>) {
    forall k :: 0 <= k < |published| ==> Coherent(published[k], bodies)
  }

  /** Each block is what its publish was asked for, on top of the one before. */
  ghost predicate AllApplied(published: seq<seq<Cell>>, publications: seq<Publication>) {
    && |published| == |publications| + 1
    && forall k: nat :: k < |publications| ==> AppliedAt(published, publications, k)
  }

  ghost predicate AppliedAt(published: seq<seq<Cell>>, publications: seq<Publication>, k: nat)
    requires k < |publications| && |published| == |publications| + 1
  {
    |published[k]| == CELLS && published[k + 1] == Applied(published[k], publications[k])
  }

  /** And the block half written will be. */
  ghost predicate AppliedInv(p: Page)
    requires Shape(p)
  {
    && AllApplied(p.past.published, p.past.publications)
    && |p.past.published[|p.past.published| - 1]| == CELLS
    && (p.writer.Filling? ==> p.writer.target == Applied(p.past.published[|p.past.published| - 1], p.writer.what))
  }

  ghost predicate PublishedInv(p: Page)
    requires Shape(p)
  {
    && AllCoherent(p.past.published, p.past.bodies)
    && (if p.writer.Filling? then
          && Coherent(p.writer.target, p.past.bodies + NewBody(p.writer.what))
          && p.writer.target[REPORTS] == Number(|p.past.bodies| + |NewBody(p.writer.what)|)
        else p.cells[REPORTS] == Number(|p.past.bodies|))
  }

  // ------------------------------------------------------------------ the event ring

  /**
   * Every slot the writer is not working on holds the newest event with its index; the one it works on, what it
   * has stored so far.
   */
  ghost predicate RingInv(p: Page)
    requires Shape(p)
  {
    && p.head == |p.past.log|
    && (forall i: nat :: i < p.head && Intact(p, i) ==> p.ring[Slot(i)] == p.past.log[i])
    && (p.writer.Stamping? ==>
          && (Time !in p.writer.left ==> p.ring[Slot(p.head)].time == p.writer.event.time)
          && (Buttons !in p.writer.left ==> p.ring[Slot(p.head)].buttons == p.writer.event.buttons))
  }

  ghost predicate AllWritten(ds: seq<Delivery>, log: seq<Event>) {
    forall i :: 0 <= i < |ds| ==> ds[i].index < |log| && (ds[i].intact ==> ds[i].event == log[ds[i].index])
  }

  ghost predicate Increasing(ds: seq<Delivery>, cursor: nat) {
    && (forall i :: 0 <= i < |ds| ==> ds[i].index < cursor)
    && (forall i, j :: 0 <= i < j < |ds| ==> ds[i].index < ds[j].index)
  }

  /** The fields loaded so far are the event's own, unless its slot was being reused when the last was loaded. */
  ghost predicate LoadedSoFar(p: Page) {
    p.drainer.Draining? && p.cursor < p.drainer.head && p.cursor < |p.past.log| ==>
      && (Intact(p, p.cursor) ==> p.drainer.intact)
      && (p.drainer.intact && Time !in p.drainer.unread ==> p.drainer.event.time == p.past.log[p.cursor].time)
      && (p.drainer.intact && Buttons !in p.drainer.unread ==> p.drainer.event.buttons == p.past.log[p.cursor].buttons)
  }

  ghost predicate CursorInv(p: Page) {
    && p.cursor <= p.head
    && p.cursor == |p.past.deliveries| + p.past.lost
    && (p.drainer.Draining? ==> p.cursor <= p.drainer.head <= p.head && p.drainer.head <= p.cursor + EVENTS)
  }

  /**
   * The newest event passed is the last one handed on, except between skipping what is lost and delivering the
   * rest.
   */
  ghost predicate LastInv(p: Page) {
    || p.cursor == 0
    || (p.past.deliveries != [] && p.past.deliveries[|p.past.deliveries| - 1].index + 1 == p.cursor)
    || (p.drainer.Draining? && p.cursor < p.drainer.head)
  }

  ghost predicate DrainInv(p: Page) {
    && CursorInv(p) && LastInv(p) && LoadedSoFar(p)
    && AllWritten(p.past.deliveries, p.past.log) && Increasing(p.past.deliveries, p.cursor)
  }

  // ------------------------------------------------------------------- the press log

  function Before(bodies: seq<Body>): Mask { if bodies == [] then 0 else PackButtons(bodies[|bodies| - 1]) }

  /** The button masks of a sequence of reports without their repetitions, starting from nothing held. */
  function Changes(bodies: seq<Body>): seq<Mask> {
    if bodies == [] then []
    else
      var front := bodies[..|bodies| - 1];
      if PackButtons(bodies[|bodies| - 1]) == Before(front) then Changes(front)
      else Changes(front) + [PackButtons(bodies[|bodies| - 1])]
  }

  function Masks(log: seq<Event>): seq<Mask> {
    seq(|log|, i requires 0 <= i < |log| => log[i].buttons)
  }

  ghost predicate PressInv(p: Page) {
    && p.lastButtons == Before(p.past.bodies)
    && Masks(p.past.log) + (if p.writer.Stamping? then [p.writer.event.buttons] else []) == Changes(p.past.bodies)
  }

  ghost predicate PageInv(p: Page) {
    && Shape(p) && LockInv(p) && ReaderInv(p) && TriesInv(p) && SnapshotsInv(p)
    && PublishedInv(p) && AppliedInv(p)
    && RingInv(p) && DrainInv(p) && PressInv(p)
  }

  // --------------------------------------------------------- what every step keeps

  lemma LockBlockStep(p: Page)
    requires Shape(p) && LockInv(p) && Enabled(p, EndBlock)
    ensures Shape(Step(p, EndBlock)) && LockInv(Step(p, EndBlock))
  {
    StepKeepsShape(p, EndBlock);
    assert p.cells == p.writer.target;
  }

  lemma LockStep(p: Page, a: Action)
    requires Shape(p) && LockInv(p) && Enabled(p, a)
    ensures Shape(Step(p, a)) && LockInv(Step(p, a))
  {
    if ByReader(a) {
      WriterElsewhere(p, a);
    } else if a.EndBlock? {
      LockBlockStep(p);
    } else {
      StepKeepsShape(p, a);
    }
  }

  lemma ReaderStep(p: Page, a: Action)
    requires Shape(p) && LockInv(p) && ReaderInv(p) && SnapshotsInv(p) && PublishedInv(p) && Enabled(p, a)
    ensures Shape(Step(p, a)) && ReaderInv(Step(p, a))
  {
    StepKeepsShape(p, a);
    if a.LoadSeq? && p.seqno % 2 == 0 {
      assert Coherent(p.past.published[|p.past.published| - 1], p.past.bodies);
    }
  }

  lemma FailureIsUnlucky(failed: seq<Attempt>, t: Attempt, seqno: nat)
    requires Unlucky(failed) && Onward(failed, t.before) && t.before <= t.after <= seqno
    requires t.before % 2 == 1 || t.before < t.after
    ensures Unlucky(failed + [t]) && Onward(failed + [t], seqno)
  {
  }

  lemma FailureKeepsTries(p: Page, failed: seq<Attempt>)
    requires AllUnlucky(p.past.gaveUp, p.seqno) && |failed| <= ATTEMPTS && Unlucky(failed) && Onward(failed, p.seqno)
    ensures TriesInv(AfterFailure(p, failed))
  {
  }

  /** Time passing between an attempt's loads only moves the number on. */
  lemma OtherStepsKeepTries(p: Page, a: Action)
    requires Shape(p) && TriesInv(p) && Enabled(p, a) && !a.LoadSeq? && !a.CheckSeq?
    ensures TriesInv(Step(p, a))
  {
    assert AllUnlucky(p.past.gaveUp, Step(p, a).seqno);
  }

  lemma TriesStep(p: Page, a: Action)
    requires Shape(p) && TriesInv(p) && Enabled(p, a)
    ensures TriesInv(Step(p, a))
  {
    if a.LoadSeq? {
      if p.seqno % 2 == 1 {
        FailureIsUnlucky(p.reader.failed, Attempt(p.seqno, p.seqno, []), p.seqno);
        FailureKeepsTries(p, p.reader.failed + [Attempt(p.seqno, p.seqno, [])]);
      }
    } else if a.CheckSeq? {
      if p.seqno != p.reader.before {
        FailureIsUnlucky(p.reader.failed, Attempt(p.reader.before, p.seqno, p.reader.got), p.seqno);
        FailureKeepsTries(p, p.reader.failed + [Attempt(p.reader.before, p.seqno, p.reader.got)]);
      }
    } else {
      OtherStepsKeepTries(p, a);
    }
  }

  lemma SnapshotsAppend(p: Page, s: Snapshot)
    requires SnapshotsInv(p) && s.publish < |p.past.published| && s.cells == p.past.published[s.publish]
    requires 2 * s.publish <= p.seqno && NoneAfter(p.past.snapshots, 2 * s.publish)
    ensures SnapshotsInv(p.(past := p.past.(snapshots := p.past.snapshots + [s])))
  {
  }

  lemma CheckKeepsSnapshots(p: Page)
    requires Shape(p) && ReaderInv(p) && SnapshotsInv(p) && Enabled(p, CheckSeq)
    ensures SnapshotsInv(Step(p, CheckSeq))
  {
    if p.seqno == p.reader.before {
      assert p.reader.got == p.past.published[p.reader.before / 2];
      SnapshotsAppend(p, Snapshot(p.reader.before / 2, p.reader.got));
    }
  }

  lemma SnapshotsStep(p: Page, a: Action)
    requires Shape(p) && LockInv(p) && ReaderInv(p) && SnapshotsInv(p) && Enabled(p, a)
    ensures SnapshotsInv(Step(p, a))
  {
    if a.CheckSeq? {
      CheckKeepsSnapshots(p);
    } else {
      assert Step(p, a).past.snapshots == p.past.snapshots && p.past.published <= Step(p, a).past.published;
    }
  }

  lemma AllCoherentGrows(published: seq<seq<Cell>>, cells: seq<Cell>, bodies: seq<Body>, more: seq<Body>)
    requires AllCoherent(published, bodies) && Coherent(cells, bodies + more)
    ensures AllCoherent(published + [cells], bodies + more)
  {
    forall k | 0 <= k < |published + [cells]|
      ensures Coherent((published + [cells])[k], bodies + more)
    {
      if k < |published| {
        assert Coherent(published[k], bodies);
      }
    }
  }

  lemma BeginCoherent(p: Page, a: Action)
    requires Shape(p) && LockInv(p) && PublishedInv(p) && Enabled(p, a) && (a.BeginPublish? || a.BeginLink?)
    ensures var w := Step(p, a).writer;
            && Coherent(w.target, p.past.bodies + NewBody(w.what))
            && w.target[REPORTS] == Number(|p.past.bodies| + |NewBody(w.what)|)
  {
    if a.BeginPublish? {
      assert (p.past.bodies + [a.body])[|p.past.bodies|] == a.body;
    } else {
      assert Coherent(p.past.published[|p.past.published| - 1], p.past.bodies);
      assert p.past.bodies + [] == p.past.bodies;
    }
  }

  lemma PublishedStep(p: Page, a: Action)
    requires Shape(p) && LockInv(p) && PublishedInv(p) && Enabled(p, a)
    ensures Shape(Step(p, a)) && PublishedInv(Step(p, a))
  {
    StepKeepsShape(p, a);
    if a.BeginPublish? || a.BeginLink? {
      BeginCoherent(p, a);
    } else if a.EndBlock? {
      assert p.cells == p.writer.target;
      assert p.past.bodies + [] == p.past.bodies;
      AllCoherentGrows(p.past.published, p.cells, p.past.bodies, NewBody(p.writer.what));
      assert Step(p, a).past.bodies == p.past.bodies + NewBody(p.writer.what);
    }
  }

  lemma AppliedAppend(published: seq<seq<Cell>>, publications: seq<Publication>, what: Publication)
    requires AllApplied(published, publications) && |published[|published| - 1]| == CELLS
    ensures AllApplied(published + [Applied(published[|published| - 1], what)], publications + [what])
  {
    var more, next := publications + [what], published + [Applied(published[|published| - 1], what)];
    forall k: nat | k < |more|
      ensures AppliedAt(next, more, k)
    {
      if k < |publications| {
        assert AppliedAt(published, publications, k);
      }
    }
  }

  lemma EndOfBlockIsApplied(p: Page)
    requires Shape(p) && LockInv(p) && AppliedInv(p) && Enabled(p, EndBlock)
    ensures Shape(Step(p, EndBlock)) && AppliedInv(Step(p, EndBlock))
  {
    StepKeepsShape(p, EndBlock);
    AppliedAppend(p.past.published, p.past.publications, p.writer.what);
    assert p.cells == p.writer.target;
  }

  lemma OtherStepsKeepApplied(p: Page, a: Action)
    requires Shape(p) && LockInv(p) && AppliedInv(p) && Enabled(p, a) && !a.EndBlock?
    ensures Shape(Step(p, a)) && AppliedInv(Step(p, a))
  {
    StepKeepsShape(p, a);
    var q := Step(p, a);
    assert q.past.published == p.past.published && q.past.publications == p.past.publications;
  }

  lemma AppliedStep(p: Page, a: Action)
    requires Shape(p) && LockInv(p) && AppliedInv(p) && Enabled(p, a)
    ensures Shape(Step(p, a)) && AppliedInv(Step(p, a))
  {
    StepKeepsShape(p, a);
    if a.EndBlock? {
      EndOfBlockIsApplied(p);
    } else {
      OtherStepsKeepApplied(p, a);
    }
  }

  predicate ByReader(a: Action) {
    a.CallLatest? || a.LoadSeq? || a.LoadCell? || a.CheckSeq? || a.LoadHead? || a.LoadField? || a.Deliver?
  }

  /** Readers write nothing. */
  lemma WriterElsewhere(p: Page, a: Action)
    requires Shape(p) && Enabled(p, a) && ByReader(a)
    ensures var q := Step(p, a);
            && Shape(q)
            && q.seqno == p.seqno && q.cells == p.cells && q.ring == p.ring && q.head == p.head
            && q.writer == p.writer && q.lastButtons == p.lastButtons
            && q.past.published == p.past.published && q.past.publications == p.past.publications
            && q.past.bodies == p.past.bodies && q.past.log == p.past.log
  {
    StepKeepsShape(p, a);
  }

  /** The writer knows nothing of readers. */
  lemma ReadersElsewhere(p: Page, a: Action)
    requires Shape(p) && Enabled(p, a) && !ByReader(a)
    ensures var q := Step(p, a);
            && Shape(q)
            && q.reader == p.reader && q.drainer == p.drainer && q.cursor == p.cursor
            && q.past.snapshots == p.past.snapshots && q.past.gaveUp == p.past.gaveUp
            && q.past.deliveries == p.past.deliveries && q.past.lost == p.past.lost
            && p.head <= q.head && p.past.log <= q.past.log
  {
    StepKeepsShape(p, a);
  }

  lemma SlotsDiffer(i: nat, j: nat)
    requires i < j < i + EVENTS
    ensures Slot(i) != Slot(j)
  {
  }

  /** Once the writer has started on a slot again, that does not become undone. */
  lemma IntactOnlyEnds(p: Page, a: Action, i: nat)
    requires Shape(p) && Enabled(p, a) && Intact(Step(p, a), i)
    ensures Intact(p, i)
  {
  }

  lemma RingFieldStep(p: Page, f: Field)
    requires Shape(p) && RingInv(p) && Enabled(p, StoreField(f))
    ensures Shape(Step(p, StoreField(f))) && RingInv(Step(p, StoreField(f)))
  {
    var q := Step(p, StoreField(f));
    forall i: nat | i < q.head && Intact(q, i)
      ensures q.ring[Slot(i)] == q.past.log[i]
    {
      IntactOnlyEnds(p, StoreField(f), i);
      SlotsDiffer(i, p.head);
    }
  }

  lemma RingHeadStep(p: Page)
    requires Shape(p) && RingInv(p) && Enabled(p, MoveHead)
    ensures Shape(Step(p, MoveHead)) && RingInv(Step(p, MoveHead))
  {
    var q := Step(p, MoveHead);
    forall i: nat | i < q.head && Intact(q, i)
      ensures q.ring[Slot(i)] == q.past.log[i]
    {
      IntactOnlyEnds(p, MoveHead, i);
    }
  }

  lemma RingBlockStep(p: Page, a: Action)
    requires Shape(p) && RingInv(p) && Enabled(p, a) && !ByReader(a) && !a.StoreField? && !a.MoveHead?
    ensures Shape(Step(p, a)) && RingInv(Step(p, a))
  {
    StepKeepsShape(p, a);
    var q := Step(p, a);
    assert q.ring == p.ring && q.head == p.head && q.past.log == p.past.log && !p.writer.Stamping?;
  }

  lemma RingStep(p: Page, a: Action)
    requires Shape(p) && RingInv(p) && Enabled(p, a)
    ensures Shape(Step(p, a)) && RingInv(Step(p, a))
  {
    if ByReader(a) {
      WriterElsewhere(p, a);
    } else if a.StoreField? {
      RingFieldStep(p, a.field);
    } else if a.MoveHead? {
      RingHeadStep(p);
    } else {
      RingBlockStep(p, a);
    }
  }

  lemma LoadedStep(p: Page, a: Action)
    requires Shape(p) && RingInv(p) && CursorInv(p) && LoadedSoFar(p) && Enabled(p, a)
    ensures LoadedSoFar(Step(p, a))
  {
    if Intact(Step(p, a), p.cursor) {
      IntactOnlyEnds(p, a, p.cursor);
    }
  }

  lemma DeliverStep(p: Page)
    requires Shape(p) && p.head == |p.past.log| && DrainInv(p) && Enabled(p, Deliver)
    ensures var t := Step(p, Deliver);
            AllWritten(t.past.deliveries, p.past.log) && Increasing(t.past.deliveries, t.cursor)
  {
  }

  lemma CursorStep(p: Page, a: Action)
    requires Shape(p) && CursorInv(p) && Enabled(p, a)
    ensures CursorInv(Step(p, a))
  {
  }

  lemma LastStep(p: Page, a: Action)
    requires Shape(p) && CursorInv(p) && LastInv(p) && Enabled(p, a)
    ensures LastInv(Step(p, a))
  {
  }

  lemma DrainStep(p: Page, a: Action)
    requires Shape(p) && RingInv(p) && DrainInv(p) && Enabled(p, a)
    ensures DrainInv(Step(p, a))
  {
    LoadedStep(p, a);
    CursorStep(p, a);
    LastStep(p, a);
    if a.Deliver? {
      DeliverStep(p);
    } else if ByReader(a) {
      OtherReadsDeliverNothing(p, a);
    } else {
      ReadersElsewhere(p, a);
    }
  }

  lemma OtherReadsDeliverNothing(p: Page, a: Action)
    requires Shape(p) && DrainInv(p) && Enabled(p, a) && ByReader(a) && !a.Deliver?
    ensures var q := Step(p, a);
            AllWritten(q.past.deliveries, q.past.log) && Increasing(q.past.deliveries, q.cursor)
  {
    var q := Step(p, a);
    assert q.past.deliveries == p.past.deliveries && q.past.log == p.past.log && p.cursor <= q.cursor;
  }

  lemma PressBlockStep(p: Page)
    requires Shape(p) && PressInv(p) && Enabled(p, EndBlock)
    ensures PressInv(Step(p, EndBlock))
  {
    if p.writer.what.Report? {
      var more := p.past.bodies + [p.writer.what.body];
      assert more[..|more| - 1] == p.past.bodies;
    }
  }

  lemma PressHeadStep(p: Page)
    requires Shape(p) && PressInv(p) && Enabled(p, MoveHead)
    ensures PressInv(Step(p, MoveHead))
  {
    assert Masks(p.past.log + [p.writer.event]) == Masks(p.past.log) + [p.writer.event.buttons];
  }

  /** Neither ending a block nor moving the head. */
  lemma QuietStep(p: Page, a: Action)
    requires Shape(p) && Enabled(p, a) && !a.EndBlock? && !a.MoveHead?
    ensures var q := Step(p, a);
            && q.lastButtons == p.lastButtons && q.past.bodies == p.past.bodies && q.past.log == p.past.log
            && q.past.publications == p.past.publications
            && q.writer.Stamping? == p.writer.Stamping?
            && (p.writer.Stamping? ==> q.writer.event == p.writer.event)
  {
  }

  lemma PressStep(p: Page, a: Action)
    requires Shape(p) && PressInv(p) && Enabled(p, a)
    ensures PressInv(Step(p, a))
  {
    if a.EndBlock? {
      PressBlockStep(p);
    } else if a.MoveHead? {
      PressHeadStep(p);
    } else {
      QuietStep(p, a);
    }
  }

  lemma StepKeepsInv(p: Page, a: Action)
    requires PageInv(p) && Enabled(p, a)
    ensures PageInv(Step(p, a))
  {
    LockStep(p, a);
    ReaderStep(p, a);
    TriesStep(p, a);
    SnapshotsStep(p, a);
    PublishedStep(p, a);
    AppliedStep(p, a);
    RingStep(p, a);
    DrainStep(p, a);
    PressStep(p, a);
  }

  lemma {:induction false} RunKeepsInv(p: Page, actions: seq<Action>)
    requires PageInv(p) && IsRun(p, actions)
    ensures PageInv(Run(p, actions))
    decreases actions
  {
    if actions != [] {
      StepKeepsInv(p, actions[0]);
      RunKeepsInv(Step(p, actions[0]), actions[1..]);
    }
  }

  lemma FreshIsGood(ring: seq<Event>)
    requires |ring| == EVENTS
    ensures PageInv(Fresh(Zeroed(), ring))
  {
    assert Masks([]) == [];
  }

  // ------------------------------------------------------------------- the claims

  /**
   * What a publish leaves, cell by cell. A report: its 63 bytes, its time, one more report counted, and the
   * thirteen fields of its link block. The link block alone: those fields, and the rest as it was.
   */
  ghost predicate Shows(before: seq<Cell>, after: seq<Cell>, what: Publication) {
    && |before| == |after| == 78
    && match what
       case Report(body, monotonic, link, _) =>
         && (forall i :: 0 <= i < 63 ==> after[i] == Byte(body[i]))
         && after[63] == Number(monotonic)
         && before[64].Number? && after[64] == Number(before[64].n + 1)
         && (forall i :: 65 <= i < 78 ==> after[i] == Number(link[i - 65]))
       case LinkOnly(link) =>
         && (forall i :: 0 <= i < 65 ==> after[i] == before[i])
         && (forall i :: 65 <= i < 78 ==> after[i] == Number(link[i - 65]))
  }

  lemma AppliedShows(before: seq<Cell>, what: Publication)
    requires |before| == CELLS && before[REPORTS].Number?
    ensures Shows(before, Applied(before, what), what)
  {
  }

  ghost predicate ShownAt(published: seq<seq<Cell>>, publications: seq<Publication>, k: nat)
    requires k < |publications| && |published| == |publications| + 1
  {
    Shows(published[k], published[k + 1], publications[k])
  }

  ghost predicate AllShown(published: seq<seq<Cell>>, publications: seq<Publication>) {
    && |published| == |publications| + 1
    && forall k: nat :: k < |publications| ==> ShownAt(published, publications, k)
  }

  lemma PublishedAreShown(p: Page)
    requires AllApplied(p.past.published, p.past.publications) && AllCoherent(p.past.published, p.past.bodies)
    ensures AllShown(p.past.published, p.past.publications)
  {
    forall k: nat | k < |p.past.publications|
      ensures ShownAt(p.past.published, p.past.publications, k)
    {
      assert AppliedAt(p.past.published, p.past.publications, k);
      assert Coherent(p.past.published[k], p.past.bodies);
      AppliedShows(p.past.published[k], p.past.publications[k]);
    }
  }

  /**
   * In every interleaving of stores and loads: a snapshot is, cell for cell, the block as one finished publish
   * (or the start) left it; every cell of that is the one its publish was given, or else as the publish before
   * left it; its own count names the report its body is; and snapshots never go back to an earlier publish.
   */
  lemma SnapshotsAreWholeAndOrdered(start: Page, actions: seq<Action>)
    requires PageInv(start) && IsRun(start, actions)
    ensures var p := Run(start, actions);
            && AllWhole(p.past.snapshots, p.past.published)
            && AllShown(p.past.published, p.past.publications)
            && (forall i :: 0 <= i < |p.past.snapshots| ==> Coherent(p.past.snapshots[i].cells, p.past.bodies))
            && Ordered(p.past.snapshots)
  {
    RunKeepsInv(start, actions);
    var p := Run(start, actions);
    PublishedAreShown(p);
    forall i | 0 <= i < |p.past.snapshots|
      ensures Coherent(p.past.snapshots[i].cells, p.past.bodies)
    {
      assert Coherent(p.past.published[p.past.snapshots[i].publish], p.past.bodies);
    }
  }

  function AskedOne(a: Action): seq<Publication> {
    match a
    case BeginPublish(body, monotonic, link, stamp) => [Report(body, monotonic, link, stamp)]
    case BeginLink(link) => [LinkOnly(link)]
    case _ => []
  }

  /** What the writer was asked to publish, in order. */
  function AskedBy(actions: seq<Action>): seq<Publication>
    decreases actions
  {
    if actions == [] then [] else AskedOne(actions[0]) + AskedBy(actions[1..])
  }

  /** Finished, and the one under way. */
  function Begun(p: Page): seq<Publication> {
    p.past.publications + if p.writer.Filling? then [p.writer.what] else []
  }

  lemma ConcatAssociates(a: seq<Publication>, b: seq<Publication>, c: seq<Publication>)
    ensures a + b + c == a + (b + c)
  {
  }

  lemma BegunStep(p: Page, a: Action)
    requires Shape(p) && Enabled(p, a)
    ensures Begun(Step(p, a)) == Begun(p) + AskedOne(a)
  {
  }

  /**
   * In every interleaving the publishes are those asked for, with their own arguments, none missed and none
   * doubled.
   */
  lemma {:induction false} PublishesWhatItIsAsked(start: Page, actions: seq<Action>)
    requires Shape(start) && IsRun(start, actions)
    ensures Begun(Run(start, actions)) == Begun(start) + AskedBy(actions)
    decreases actions
  {
    if actions == [] {
      assert Begun(start) + [] == Begun(start);
    } else {
      StepKeepsShape(start, actions[0]);
      BegunStep(start, actions[0]);
      PublishesWhatItIsAsked(Step(start, actions[0]), actions[1..]);
      ConcatAssociates(Begun(start), AskedOne(actions[0]), AskedBy(actions[1..]));
    }
  }

  /**
   * In every interleaving, latest gives up only after sixteen attempts, each of which found the block locked
   * or saw a publish begin while it copied.
   */
  lemma GivesUpOnlyOnABusyPage(start: Page, actions: seq<Action>)
    requires PageInv(start) && IsRun(start, actions)
    ensures AllUnlucky(Run(start, actions).past.gaveUp, Run(start, actions).seqno)
  {
    RunKeepsInv(start, actions);
  }

  /** How far a call of latest that began in `before` has got by `q` when nothing is published meanwhile. */
  ghost predicate MidRead(before: Page, q: Page) {
    && q.seqno == before.seqno && !q.writer.Filling? && q.past.gaveUp == before.past.gaveUp && q.past.published == before.past.published
    && match q.reader
       case Trying(failed) => failed == [] && q.past.snapshots == before.past.snapshots
       case Copying(failed, n, _, _) => failed == [] && n == q.seqno && q.past.snapshots == before.past.snapshots
       case Resting => |q.past.snapshots| == |before.past.snapshots| + 1 && q.past.snapshots[|before.past.snapshots|].publish == q.seqno / 2
  }

  lemma MidReadStep(before: Page, q: Page, a: Action)
    requires Shape(q) && Enabled(q, a) && MidRead(before, q) && before.seqno % 2 == 0
    requires !a.BeginPublish? && !a.BeginLink? && !a.CallLatest?
    ensures MidRead(before, Step(q, a))
  {
  }

  /** The call returned the newest publish and did not give up. */
  ghost predicate ReadNewest(before: Page, q: Page)
    requires before.past.published != []
  {
    var last := |before.past.published| - 1;
    && q.past.gaveUp == before.past.gaveUp && |q.past.snapshots| == |before.past.snapshots| + 1
    && q.past.snapshots[|before.past.snapshots|] == Snapshot(last, before.past.published[last])
  }

  lemma EndOfRead(before: Page, q: Page)
    requires MidRead(before, q) && q.reader.Resting? && PageInv(q) && PageInv(before) && !before.writer.Filling?
    ensures ReadNewest(before, q)
  {
  }

  predicate PublishesNothing(actions: seq<Action>) {
    forall i :: 0 <= i < |actions| ==>
      !actions[i].BeginPublish? && !actions[i].BeginLink? && !actions[i].CallLatest?
  }

  lemma {:induction false} MidReadRun(before: Page, q: Page, actions: seq<Action>)
    requires Shape(q) && MidRead(before, q) && before.seqno % 2 == 0
    requires IsRun(q, actions) && PublishesNothing(actions)
    ensures MidRead(before, Run(q, actions))
    decreases actions
  {
    if actions != [] {
      StepKeepsShape(q, actions[0]);
      MidReadStep(before, q, actions[0]);
      MidReadRun(before, Step(q, actions[0]), actions[1..]);
    }
  }

  lemma StartOfRead(p: Page)
    requires PageInv(p) && p.reader == Trying([]) && !p.writer.Filling?
    ensures Shape(p) && MidRead(p, p) && p.seqno % 2 == 0 && p.past.published != []
  {
  }

  lemma WholeRead(p: Page, actions: seq<Action>)
    requires Shape(p) && MidRead(p, p) && p.seqno % 2 == 0 && IsRun(p, actions) && PublishesNothing(actions)
    ensures MidRead(p, Run(p, actions))
  {
    MidReadRun(p, p, actions);
  }

  /**
   * A call during which nothing is published - an event may still be written and another reader drain - does
   * not give up: it returns, at its first attempt, the newest publish.
   */
  lemma QuietPageAnswersAtOnce(p: Page, actions: seq<Action>)
    requires PageInv(p) && p.reader == Trying([]) && !p.writer.Filling? && IsRun(p, actions)
    requires PublishesNothing(actions) && Run(p, actions).reader.Resting?
    ensures ReadNewest(p, Run(p, actions))
  {
    StartOfRead(p);
    WholeRead(p, actions);
    RunKeepsInv(p, actions);
    EndOfRead(p, Run(p, actions));
  }

  /**
   * In every interleaving: events are handed on in the order they were written, each at most once; an event
   * read before the writer starts on the one that reuses its slot is exactly the one written; and what was
   * handed on and what was reported lost add up to the cursor.
   */
  lemma DrainDeliversWhatWasWritten(start: Page, actions: seq<Action>)
    requires PageInv(start) && IsRun(start, actions)
    ensures var p := Run(start, actions);
            && p.cursor == |p.past.deliveries| + p.past.lost <= p.head == |p.past.log|
            && AllWritten(p.past.deliveries, p.past.log)
            && Increasing(p.past.deliveries, p.cursor)
  {
    RunKeepsInv(start, actions);
  }

  /**
   * How far a drain that began in `before` has got by `q`: it loaded the head then, and has delivered from
   * `first` up to the cursor.
   */
  ghost predicate MidDrain(before: Page, first: nat, q: Page) {
    && first <= q.cursor <= before.head
    && (if q.drainer.Draining? then q.drainer.head == before.head else q.cursor == before.head)
    && q.past.lost == before.past.lost + (first - before.cursor)
    && |q.past.deliveries| == |before.past.deliveries| + (q.cursor - first)
    && before.past.deliveries <= q.past.deliveries
    && forall i :: |before.past.deliveries| <= i < |q.past.deliveries| ==>
         q.past.deliveries[i].index == first + (i - |before.past.deliveries|)
  }

  lemma MidDrainStep(before: Page, first: nat, q: Page, a: Action)
    requires Shape(q) && Enabled(q, a) && MidDrain(before, first, q) && !a.LoadHead?
    ensures MidDrain(before, first, Step(q, a))
  {
  }

  lemma {:induction false} MidDrainRun(before: Page, first: nat, q: Page, actions: seq<Action>)
    requires Shape(q) && IsRun(q, actions) && MidDrain(before, first, q)
    requires forall i :: 0 <= i < |actions| ==> !actions[i].LoadHead?
    ensures MidDrain(before, first, Run(q, actions))
    decreases actions
  {
    if actions != [] {
      StepKeepsShape(q, actions[0]);
      MidDrainStep(before, first, q, actions[0]);
      MidDrainRun(before, first, Step(q, actions[0]), actions[1..]);
    }
  }

  /**
   * One whole call of drain, with a writer and another reader working the page at the same time: from the
   * head it loads, it delivers in order exactly the newest min(256, head - cursor) events before that head,
   * reports the others as lost, and leaves the cursor at that head. Each event read before the writer starts
   * on the one that reuses its slot is exactly the one written.
   */
  lemma DrainCallIsExact(p: Page, rest: seq<Action>)
    requires PageInv(p) && p.drainer.Waiting? && IsRun(Step(p, LoadHead), rest)
    requires forall i :: 0 <= i < |rest| ==> !rest[i].LoadHead?
    requires Run(Step(p, LoadHead), rest).drainer.Waiting?
    ensures var q := Run(Step(p, LoadHead), rest);
            var n := Min(EVENTS, p.head - p.cursor);
            && q.cursor == p.head
            && AllWritten(q.past.deliveries, q.past.log)
            && p.past.deliveries <= q.past.deliveries && |q.past.deliveries| == |p.past.deliveries| + n
            && (forall i :: |p.past.deliveries| <= i < |q.past.deliveries| ==>
                  q.past.deliveries[i].index == p.head - n + (i - |p.past.deliveries|))
            && n + (q.past.lost - p.past.lost) == p.head - p.cursor
  {
    var n := Min(EVENTS, p.head - p.cursor);
    MidDrainRun(p, p.head - n, Step(p, LoadHead), rest);
    StepKeepsInv(p, LoadHead);
    RunKeepsInv(Step(p, LoadHead), rest);
  }

  lemma RunOfThree(p: Page, a: Action, b: Action, c: Action, p1: Page, p2: Page)
    requires Shape(p) && Enabled(p, a) && p1 == Step(p, a)
    requires Shape(p1) && Enabled(p1, b) && p2 == Step(p1, b)
    requires Shape(p2) && Enabled(p2, c)
    ensures IsRun(p, [a, b, c]) && Run(p, [a, b, c]) == Step(p2, c)
  {
    assert [a, b, c][1..] == [b, c] && [b, c][1..] == [c] && [c][1..] == [];
    StepKeepsShape(p2, c);
    assert IsRun(p2, [c]) && Run(p2, [c]) == Run(Step(p2, c), []) == Step(p2, c);
    assert IsRun(p1, [b, c]) && Run(p1, [b, c]) == Step(p2, c);
  }

  /**
   * Past that point there is no such promise: a reader the writer has lapped hands on the newer event under the
   * older one's index.
   */
  lemma LappedReaderDeliversTheNewerEvent(p: Page)
    requires Shape(p) && RingInv(p) && p.writer.Stamping? && p.writer.left == {} && p.head == p.cursor + EVENTS
    requires p.drainer.Draining? && p.cursor < p.drainer.head && p.drainer.unread == {Time, Buttons}
    ensures IsRun(p, [LoadField(Time), LoadField(Buttons), Deliver])
    ensures var q := Run(p, [LoadField(Time), LoadField(Buttons), Deliver]);
            q.past.deliveries == p.past.deliveries + [Delivery(p.cursor, p.writer.event, false)]
  {
    assert Slot(p.cursor) == Slot(p.head);
    var p1 := Step(p, LoadField(Time));
    var p2 := Step(p1, LoadField(Buttons));
    assert p2.drainer.event == p.writer.event && p2.drainer.unread == {};
    RunOfThree(p, LoadField(Time), LoadField(Buttons), Deliver, p1, p2);
  }

  /**
   * The log of presses is complete: the events are the reports' button masks without repetitions, no more and no
   * fewer.
   */
  lemma EventsAreExactlyTheChanges(start: Page, actions: seq<Action>)
    requires PageInv(start) && IsRun(start, actions)
    ensures var p := Run(start, actions);
            Masks(p.past.log) + (if p.writer.Stamping? then [p.writer.event.buttons] else []) == Changes(p.past.bodies)
  {
    RunKeepsInv(start, actions);
  }

  /** The mask of the newest report among some publishes, nothing held before the first. */
  function MaskBy(publications: seq<Publication>): Mask {
    if publications == [] then 0
    else
      var last := publications[|publications| - 1];
      if last.Report? then PackButtons(last.body) else MaskBy(publications[..|publications| - 1])
  }

  /** The events some publishes give: one per report that changes the mask, with that report's own time. */
  function EventsFor(publications: seq<Publication>): seq<Event> {
    if publications == [] then []
    else
      var front, last := publications[..|publications| - 1], publications[|publications| - 1];
      EventsFor(front) +
      if last.Report? && PackButtons(last.body) != MaskBy(front)
      then [Event(last.stamp, PackButtons(last.body))] else []
  }

  ghost predicate TimedInv(p: Page) {
    && p.lastButtons == MaskBy(p.past.publications)
    && p.past.log + (if p.writer.Stamping? then [p.writer.event] else []) == EventsFor(p.past.publications)
  }

  lemma TimedBlockStep(p: Page)
    requires Shape(p) && TimedInv(p) && Enabled(p, EndBlock)
    ensures TimedInv(Step(p, EndBlock))
  {
    var more := p.past.publications + [p.writer.what];
    assert more[..|more| - 1] == p.past.publications;
    assert p.past.log + [] == p.past.log;
  }

  lemma TimedStep(p: Page, a: Action)
    requires Shape(p) && TimedInv(p) && Enabled(p, a)
    ensures TimedInv(Step(p, a))
  {
    if a.EndBlock? {
      TimedBlockStep(p);
    } else if a.MoveHead? {
      assert p.past.log + [p.writer.event] + [] == p.past.log + [p.writer.event];
    } else {
      QuietStep(p, a);
    }
  }

  /** In every interleaving each event has the time its own publish was given, and the mask of its report. */
  lemma {:induction false} EventsCarryTheirTimes(start: Page, actions: seq<Action>)
    requires Shape(start) && TimedInv(start) && IsRun(start, actions)
    ensures TimedInv(Run(start, actions))
    decreases actions
  {
    if actions != [] {
      StepKeepsShape(start, actions[0]);
      TimedStep(start, actions[0]);
      EventsCarryTheirTimes(Step(start, actions[0]), actions[1..]);
    }
  }

  /**
   * Stutter-free: no two neighbours are equal, the first is not "nothing held", and the last is what the last
   * report holds.
   */
  lemma {:induction false} ChangesAreStutterFree(bodies: seq<Body>)
    ensures var c := Changes(bodies);
            && (forall i :: 0 < i < |c| ==> c[i] != c[i - 1])
            && (c != [] ==> c[0] != 0)
            && Before(bodies) == if c == [] then 0 else c[|c| - 1]
  {
    if bodies != [] {
      ChangesAreStutterFree(bodies[..|bodies| - 1]);
    }
  }
}
