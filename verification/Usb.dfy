/**
 * The gadget's side of the cable (src/usb/USBHandler.cpp, src/usb/HidGadget.h): GET_REPORT, relayed to the pad
 * and answered once, and the interrupt IN endpoint with its one buffer.
 */
module Usb {
  import opened Bytes

  const REPORT_LENGTH := 64

  // -------------------------------------------------------------- the data stage

  /** The first min(wLength, 64) bytes of the report followed by zeros without end. */
  function Answer(report: seq<byte>, wLength: u16): seq<byte> {
    seq(Min(wLength, REPORT_LENGTH), i requires 0 <= i => if i < |report| then report[i] else 0)
  }

  /** Byte by byte: the report as far as it goes, zeros behind it, cut at what was asked for and at 64. */
  predicate PaddedPrefix(bytes: seq<byte>, report: seq<byte>, wLength: u16) {
    && |bytes| == (if wLength < 64 then wLength else 64)
    && (forall i :: 0 <= i < |bytes| && i < |report| ==> bytes[i] == report[i])
    && (forall i :: |report| <= i < |bytes| ==> bytes[i] == 0)
  }

  /** There is one such data stage, and it is the one that is sent. */
  lemma AnswerIsPaddedPrefix(bytes: seq<byte>, report: seq<byte>, wLength: u16)
    ensures PaddedPrefix(bytes, report, wLength) <==> bytes == Answer(report, wLength)
  {
    if PaddedPrefix(bytes, report, wLength) {
      forall i | 0 <= i < |bytes|
        ensures bytes[i] == Answer(report, wLength)[i]
      {
      }
    }
  }

  /** get_report_answer: a copy into a zeroed buffer, cut at what was asked for. */
  method GetReportAnswer(report: seq<byte>, wLength: u16) returns (bytes: seq<byte>)
    ensures bytes == Answer(report, wLength) && PaddedPrefix(bytes, report, wLength)
  {
    var data := new byte[REPORT_LENGTH](_ => 0);
    var n := Min(|report|, REPORT_LENGTH);
    ghost var zeros := data[n..];
    CopyInto(data, 0, report[..n]);
    assert data[..n] == report[..n] && data[n..] == zeros;
    assert forall i :: 0 <= i < REPORT_LENGTH ==> data[i] == if i < n then data[..n][i] else data[n..][i - n];
    bytes := data[..Min(wLength, REPORT_LENGTH)];
    AnswerIsPaddedPrefix(bytes, report, wLength);
  }

  /** What is kept of an answer loses nothing that a data stage could carry. */
  function Kept(report: seq<byte>): seq<byte> { report[..Min(|report|, REPORT_LENGTH)] }

  lemma KeptAnswersTheSame(report: seq<byte>, wLength: u16)
    ensures Answer(Kept(report), wLength) == Answer(report, wLength)
  {
  }

  // ------------------------------------------------------------ GET_REPORT, as values

  /** Fixed properties of the pad: calibration, pairing information, firmware. */
  predicate Cacheable(id: byte) { id == 0x05 || id == 0x09 || id == 0x20 }

  /** Requests are numbered in the order the console makes them. */
  datatype Pending = Pending(id: byte, length: u16, number: nat)

  /** A data stage that went out; `seen` is how many answers the pad had given by then. */
  datatype Reply = Reply(number: nat, id: byte, length: u16, bytes: seq<byte>, seen: nat)

  /**
   * `given` is every feature report the pad sent, `asked` the numbers of the requests passed on to it,
   * `dropped` those left without an answer: detached, or replaced by a newer one.
   */
  datatype Gadget = Gadget(
    pending: Option<Pending>,
    answers: map<byte, seq<byte>>,
    requests: nat,
    asked: set<nat>,
    dropped: set<nat>,
    given: seq<seq<byte>>,
    replies: seq<Reply>)

  datatype Event =
    | GetReport(id: byte, length: u16)
    | PadAnswers(report: seq<byte>)
    | TimesOut
    | Detach

  function Finish(g: Gadget, report: seq<byte>): Gadget
    requires g.pending.Some?
  {
    var p := g.pending.value;
    g.(pending := None,
       replies := g.replies + [Reply(p.number, p.id, p.length, Answer(report, p.length), |g.given|)])
  }

  /** The number of the pending request, if there is one. */
  function Waiting(g: Gadget): set<nat> { if g.pending.Some? then {g.pending.value.number} else {} }

  function Begin(g: Gadget, id: byte, length: u16): Gadget {
    var n := g.requests;
    var g1 := g.(requests := n + 1);
    if Cacheable(id) && id in g.answers then
      g1.(replies := g.replies + [Reply(n, id, length, Answer(g.answers[id], length), |g.given|)])
    else
      g1.(pending := Some(Pending(id, length, n)), asked := g.asked + {n}, dropped := g.dropped + Waiting(g))
  }

  function PadAnswer(g: Gadget, report: seq<byte>): Gadget {
    if report == [] then g
    else
      var id := report[0];
      var g1 := g.(answers := g.answers[id := Kept(report)], given := g.given + [report]);
      if g.pending.Some? && g.pending.value.id == id then Finish(g1, Kept(report)) else g1
  }

  function Timeout(g: Gadget): Gadget {
    if g.pending.None? then g
    else
      var id := g.pending.value.id;
      Finish(g, if id in g.answers then g.answers[id] else [])
  }

  function Step(g: Gadget, e: Event): Gadget {
    match e
    case GetReport(id, length) => Begin(g, id, length)
    case PadAnswers(report) => PadAnswer(g, report)
    case TimesOut => Timeout(g)
    case Detach => g.(pending := None, dropped := g.dropped + Waiting(g))
  }

  function Run(g: Gadget, es: seq<Event>): Gadget
    decreases es
  {
    if es == [] then g else Run(Step(g, es[0]), es[1..])
  }

  const IDLE := Gadget(None, map[], 0, {}, {}, [], [])

  // -------------------------------------------------------- what every step keeps

  /** The newest of the first n feature reports the pad gave under this id. */
  function Latest(given: seq<seq<byte>>, id: byte, n: nat): Option<seq<byte>>
    requires n <= |given|
  {
    if n == 0 then None
    else if given[n - 1] != [] && given[n - 1][0] == id then Some(given[n - 1])
    else Latest(given, id, n - 1)
  }

  /** The bytes of the pad's newest answer under that id, or nothing but zeros when it had given none. */
  ghost predicate Honest(given: seq<seq<byte>>, r: Reply) {
    && r.seen <= |given|
    && var latest := Latest(given, r.id, r.seen);
       r.bytes == Answer(if latest.Some? then latest.value else [], r.length)
  }

  ghost predicate CacheIsLatest(g: Gadget) {
    forall id: byte ::
      var latest := Latest(g.given, id, |g.given|);
      && (id in g.answers <==> latest.Some?)
      && (id in g.answers ==> g.answers[id] == Kept(latest.value))
  }

  ghost predicate NumbersInv(g: Gadget) {
    && (forall i :: 0 <= i < |g.replies| ==> g.replies[i].number < g.requests)
    && (forall i, j :: 0 <= i < j < |g.replies| ==> g.replies[i].number != g.replies[j].number)
    && (g.pending.Some? ==>
          && g.pending.value.number < g.requests
          && g.pending.value.number in g.asked
          && forall i :: 0 <= i < |g.replies| ==> g.replies[i].number != g.pending.value.number)
  }

  ghost predicate RepliesInv(g: Gadget) {
    forall i :: 0 <= i < |g.replies| ==>
      && Honest(g.given, g.replies[i])
      && (g.replies[i].number !in g.asked ==> Cacheable(g.replies[i].id))
  }

  ghost predicate Answered(g: Gadget, n: nat) { exists i :: 0 <= i < |g.replies| && g.replies[i].number == n }

  /** Every request is answered, pending or dropped, and only one of the three. */
  ghost predicate AccountInv(g: Gadget) {
    && g.requests == |g.replies| + |Waiting(g)| + |g.dropped|
    && (forall n <- g.dropped :: n < g.requests && n !in Waiting(g) && !Answered(g, n))
    && (forall n: nat :: n < g.requests ==> n in g.dropped || n in Waiting(g) || Answered(g, n))
  }

  ghost predicate GadgetInv(g: Gadget) {
    && CacheIsLatest(g) && NumbersInv(g) && RepliesInv(g) && AccountInv(g)
    && forall n <- g.asked :: n < g.requests
  }

  lemma {:induction false} LatestExtends(given: seq<seq<byte>>, report: seq<byte>, id: byte, n: nat)
    requires n <= |given|
    ensures Latest(given + [report], id, n) == Latest(given, id, n)
  {
    if n > 0 {
      LatestExtends(given, report, id, n - 1);
    }
  }

  lemma RepliesExtend(g: Gadget, report: seq<byte>)
    requires RepliesInv(g)
    ensures RepliesInv(g.(given := g.given + [report]))
  {
    forall i | 0 <= i < |g.replies|
      ensures Honest(g.given + [report], g.replies[i])
    {
      assert Honest(g.given, g.replies[i]);
      LatestExtends(g.given, report, g.replies[i].id, g.replies[i].seen);
    }
  }

  lemma ReplyIsHonest(g: Gadget, id: byte, number: nat, length: u16)
    requires CacheIsLatest(g)
    ensures var kept := if id in g.answers then g.answers[id] else [];
            Honest(g.given, Reply(number, id, length, Answer(kept, length), |g.given|))
  {
    if id in g.answers {
      KeptAnswersTheSame(Latest(g.given, id, |g.given|).value, length);
    }
  }

  lemma FinishKeepsInv(g: Gadget)
    requires GadgetInv(g) && g.pending.Some?
    ensures GadgetInv(Finish(g, if g.pending.value.id in g.answers then g.answers[g.pending.value.id] else []))
  {
    var p := g.pending.value;
    ReplyIsHonest(g, p.id, p.number, p.length);
    FinishKeepsAccount(g, if p.id in g.answers then g.answers[p.id] else []);
  }

  lemma AnsweredAppend(g: Gadget, r: Reply, n: nat)
    ensures Answered(g.(replies := g.replies + [r]), n) <==> Answered(g, n) || r.number == n
  {
    var more := g.replies + [r];
    assert more[|g.replies|] == r;
    if Answered(g, n) {
      var i :| 0 <= i < |g.replies| && g.replies[i].number == n;
      assert more[i].number == n;
    }
  }

  lemma FinishKeepsAccount(g: Gadget, report: seq<byte>)
    requires AccountInv(g) && g.pending.Some?
    ensures AccountInv(Finish(g, report))
  {
    var t := Finish(g, report);
    forall n: nat
      ensures Answered(t, n) <==> Answered(g, n) || g.pending.value.number == n
    {
      AnsweredAppend(g, t.replies[|g.replies|], n);
    }
  }

  lemma BeginKeepsAccount(g: Gadget, id: byte, length: u16)
    requires AccountInv(g) && NumbersInv(g)
    ensures AccountInv(Begin(g, id, length))
  {
    var t := Begin(g, id, length);
    forall n: nat
      ensures Answered(t, n) <==> Answered(g, n) || (t.replies != g.replies && g.requests == n)
    {
      if t.replies != g.replies {
        AnsweredAppend(g, t.replies[|g.replies|], n);
      }
    }
    assert g.requests !in g.dropped && !Answered(g, g.requests);
  }

  lemma DetachKeepsAccount(g: Gadget)
    requires AccountInv(g) && NumbersInv(g)
    ensures AccountInv(Step(g, Detach))
  {
    var t := Step(g, Detach);
    assert forall n: nat :: Answered(t, n) == Answered(g, n);
  }

  lemma CacheFollows(g: Gadget, report: seq<byte>)
    requires CacheIsLatest(g) && report != []
    ensures CacheIsLatest(g.(answers := g.answers[report[0] := Kept(report)], given := g.given + [report]))
  {
    forall id: byte
      ensures Latest(g.given + [report], id, |g.given| + 1)
           == if report[0] == id then Some(report) else Latest(g.given, id, |g.given|)
    {
      LatestExtends(g.given, report, id, |g.given|);
    }
  }

  lemma BeginKeepsNumbers(g: Gadget, id: byte, length: u16)
    requires NumbersInv(g)
    ensures NumbersInv(Begin(g, id, length))
  {
  }

  /** An answer given at once has a number that was not asked; everything asked before stays asked. */
  lemma BeginKeepsReplies(g: Gadget, id: byte, length: u16)
    requires CacheIsLatest(g) && RepliesInv(g)
    ensures RepliesInv(Begin(g, id, length))
  {
    ReplyIsHonest(g, id, g.requests, length);
    var t := Begin(g, id, length);
    forall i | 0 <= i < |t.replies|
      ensures Honest(t.given, t.replies[i]) && (t.replies[i].number !in t.asked ==> Cacheable(t.replies[i].id))
    {
      if i < |g.replies| {
        assert t.replies[i] == g.replies[i];
      }
    }
  }

  lemma BeginKeepsInv(g: Gadget, id: byte, length: u16)
    requires GadgetInv(g)
    ensures GadgetInv(Begin(g, id, length))
  {
    BeginKeepsAccount(g, id, length);
    BeginKeepsNumbers(g, id, length);
    BeginKeepsReplies(g, id, length);
    assert CacheIsLatest(Begin(g, id, length));
  }

  /** An answer is remembered before it is given to anyone. */
  lemma RememberedKeepsInv(g: Gadget, report: seq<byte>)
    requires GadgetInv(g) && report != []
    ensures GadgetInv(g.(answers := g.answers[report[0] := Kept(report)], given := g.given + [report]))
  {
    var g1 := g.(answers := g.answers[report[0] := Kept(report)], given := g.given + [report]);
    CacheFollows(g, report);
    RepliesExtend(g, report);
    assert forall n: nat :: Answered(g1, n) == Answered(g, n);
  }

  lemma PadAnswerKeepsInv(g: Gadget, report: seq<byte>)
    requires GadgetInv(g)
    ensures GadgetInv(PadAnswer(g, report))
  {
    if report != [] {
      RememberedKeepsInv(g, report);
      if g.pending.Some? {
        FinishKeepsInv(g.(answers := g.answers[report[0] := Kept(report)], given := g.given + [report]));
      }
    }
  }

  lemma StepKeepsInv(g: Gadget, e: Event)
    requires GadgetInv(g)
    ensures GadgetInv(Step(g, e))
  {
    match e
    case GetReport(id, length) => BeginKeepsInv(g, id, length);
    case PadAnswers(report) => PadAnswerKeepsInv(g, report);
    case TimesOut =>
      if g.pending.Some? {
        FinishKeepsInv(g);
      }
    case Detach => DetachKeepsAccount(g);
  }

  lemma {:induction false} RunKeepsInv(g: Gadget, es: seq<Event>)
    requires GadgetInv(g)
    ensures GadgetInv(Run(g, es))
    decreases es
  {
    if es != [] {
      StepKeepsInv(g, es[0]);
      RunKeepsInv(Step(g, es[0]), es[1..]);
    }
  }

  /** The three that may be answered without asking the pad, by number. */
  predicate FixedProperty(id: byte) { id == 0x05 || id == 0x09 || id == 0x20 }

  /**
   * Over every run of requests, answers, timeouts and detaches: no request is answered twice; a reply is
   * min(wLength, 64) bytes, byte by byte the newest answer the pad had given under that very id with zeros
   * behind it, or zeros alone exactly when it had given none; and only the fixed properties are answered
   * without asking it.
   */
  lemma EveryReplyIsThePadsOwn(es: seq<Event>)
    ensures var g := Run(IDLE, es);
            && (forall i, j :: 0 <= i < j < |g.replies| ==> g.replies[i].number != g.replies[j].number)
            && (forall i :: 0 <= i < |g.replies| ==>
                  && g.replies[i].seen <= |g.given|
                  && IsPadsOwn(g.replies[i], Latest(g.given, g.replies[i].id, g.replies[i].seen))
                  && (g.replies[i].number !in g.asked ==> FixedProperty(g.replies[i].id)))
  {
    assert GadgetInv(IDLE);
    RunKeepsInv(IDLE, es);
    var g := Run(IDLE, es);
    forall i | 0 <= i < |g.replies|
      ensures IsPadsOwn(g.replies[i], Latest(g.given, g.replies[i].id, g.replies[i].seen))
    {
      var r := g.replies[i];
      assert Honest(g.given, r);
      var latest := Latest(g.given, r.id, r.seen);
      AnswerIsPaddedPrefix(r.bytes, if latest.Some? then latest.value else [], r.length);
    }
  }

  /** The reply's bytes are those of the pad's newest answer, or all zeros. */
  predicate IsPadsOwn(r: Reply, latest: Option<seq<byte>>) {
    match latest
    case Some(answer) => PaddedPrefix(r.bytes, answer, r.length)
    case None => PaddedPrefix(r.bytes, [], r.length)
  }

  /** The newest answer under an id is the last report given that begins with it. */
  lemma {:induction false} LatestIs(given: seq<seq<byte>>, id: byte, n: nat)
    requires n <= |given|
    ensures match Latest(given, id, n)
            case Some(answer) =>
              exists k :: && 0 <= k < n && given[k] == answer && answer != [] && answer[0] == id
                          && forall j :: k < j < n ==> given[j] == [] || given[j][0] != id
            case None => forall j :: 0 <= j < n ==> given[j] == [] || given[j][0] != id
  {
    if n > 0 && !(given[n - 1] != [] && given[n - 1][0] == id) {
      LatestIs(given, id, n - 1);
    }
  }

  /**
   * After any run a request is answered at once exactly when it is for a fixed property the pad has already
   * told; any other is passed on.
   */
  lemma AnsweredAtOnceOnlyWhenKnown(es: seq<Event>, id: byte, length: u16)
    ensures var g := Run(IDLE, es);
            var t := Step(g, GetReport(id, length));
            var known := FixedProperty(id) && Latest(g.given, id, |g.given|).Some?;
            && |t.replies| == |g.replies| + (if known then 1 else 0)
            && (g.requests in t.asked <==> !known)
            && t.pending == if known then g.pending else Some(Pending(id, length, g.requests))
  {
    assert GadgetInv(IDLE);
    RunKeepsInv(IDLE, es);
  }

  /** After any run an answer under the awaited id ends the wait with a reply, and any other answer leaves it. */
  lemma AnswerEndsTheWait(es: seq<Event>, report: seq<byte>)
    requires Run(IDLE, es).pending.Some?
    ensures var g := Run(IDLE, es);
            var t := Step(g, PadAnswers(report));
            var p := g.pending.value;
            if report != [] && report[0] == p.id then
              && t.pending == None && |t.replies| == |g.replies| + 1
              && t.replies[|g.replies|].number == p.number
              && PaddedPrefix(t.replies[|g.replies|].bytes, report, p.length)
            else t.pending == g.pending && t.replies == g.replies
  {
    var g := Run(IDLE, es);
    if report != [] {
      KeptAnswersTheSame(report, g.pending.value.length);
      AnswerIsPaddedPrefix(Answer(report, g.pending.value.length), report, g.pending.value.length);
    }
  }

  /**
   * The account over every run: requests = replies + the pending one + those detached or replaced, and a
   * request has exactly one reply if and only if it is neither pending nor dropped.
   */
  lemma EveryRequestIsAccountedFor(es: seq<Event>)
    ensures var g := Run(IDLE, es);
            && g.requests == |g.replies| + |Waiting(g)| + |g.dropped|
            && (forall n: nat :: n < g.requests ==>
                  ((exists i :: 0 <= i < |g.replies| && g.replies[i].number == n)
                   <==> n !in Waiting(g) && n !in g.dropped))
            && (forall i, j :: 0 <= i < j < |g.replies| ==> g.replies[i].number != g.replies[j].number)
  {
    assert GadgetInv(IDLE);
    RunKeepsInv(IDLE, es);
    var g := Run(IDLE, es);
    forall n: nat | n < g.requests
      ensures (exists i :: 0 <= i < |g.replies| && g.replies[i].number == n) <==> n !in Waiting(g) && n !in g.dropped
    {
      assert Answered(g, n) <==> n !in Waiting(g) && n !in g.dropped;
    }
  }

  /** After a timeout nothing is pending, so from then on every request so far is answered or was dropped. */
  lemma TimeoutLeavesNothingOpen(es: seq<Event>)
    ensures var g := Run(IDLE, es + [TimesOut]);
            g.requests == |g.replies| + |g.dropped| && g.dropped == Run(IDLE, es).dropped
  {
    EveryRequestIsAccountedFor(es + [TimesOut]);
    RunAppend(IDLE, es, TimesOut);
  }

  lemma {:induction false} RunAppend(g: Gadget, es: seq<Event>, e: Event)
    ensures Run(g, es + [e]) == Step(Run(g, es), e)
    decreases es
  {
    if es == [] {
      assert [e][1..] == [];
    } else {
      RunAppend(Step(g, es[0]), es[1..], e);
      assert (es + [e])[1..] == es[1..] + [e];
    }
  }

  // --------------------------------------------------------- the interrupt IN endpoint

  const ESHUTDOWN := 108
  const ECONNRESET := 104
  const EAGAIN := 11
  const ENODEV := 19

  /** `calls` and `owed` are history: how many reports were offered, and what the kernel was last given. */
  datatype Endpoint = Endpoint(enabled: bool, busy: bool, buf: seq<byte>,
                               ok: nat, eagain: nat, shutdown: nat, error: nat,
                               calls: nat, owed: seq<byte>)

  datatype EndpointEvent = Input(report: seq<byte>, submits: bool) | Done(result: int) | Enabled(on: bool)

  function Overlay(buf: seq<byte>, bytes: seq<byte>): seq<byte>
    requires |bytes| <= |buf|
  {
    bytes + buf[|bytes|..]
  }

  function SendInput(e: Endpoint, report: seq<byte>, submits: bool): Endpoint
    requires |e.buf| == REPORT_LENGTH
  {
    var e1 := e.(calls := e.calls + 1);
    if !e.enabled then e1.(shutdown := e.shutdown + 1)
    else if e.busy then e1.(eagain := e.eagain + 1)
    else
      var bytes := Kept(report);
      var e2 := e1.(buf := Overlay(e.buf, bytes));
      if submits then e2.(busy := true, owed := bytes) else e2.(error := e.error + 1)
  }

  predicate IsShutdown(err: int) { err == ESHUTDOWN || err == ECONNRESET || err == EAGAIN || err == ENODEV }

  function InputDone(e: Endpoint, result: int): Endpoint {
    var e1 := e.(busy := false);
    if result >= 0 then e1.(ok := e.ok + 1)
    else if IsShutdown(-result) then e1.(shutdown := e.shutdown + 1)
    else e1.(error := e.error + 1)
  }

  /** What an offer does, counter by counter and byte by byte. */
  lemma OfferedOnce(e: Endpoint, report: seq<byte>, submits: bool)
    requires |e.buf| == 64
    ensures var t := SendInput(e, report, submits);
            && t.busy == (e.busy || (e.enabled && submits))
            && t.shutdown == e.shutdown + (if e.enabled then 0 else 1)
            && t.eagain == e.eagain + (if e.enabled && e.busy then 1 else 0)
            && t.error == e.error + (if e.enabled && !e.busy && !submits then 1 else 0)
            && |t.buf| == 64
            && forall i :: 0 <= i < 64 ==>
                 t.buf[i] == if e.enabled && !e.busy && i < |report| then report[i] else e.buf[i]
    ensures var t := SendInput(e, report, submits);
            e.enabled && !e.busy && submits ==> t.owed == if |report| <= 64 then report else report[..64]
  {
  }

  /** What a completion does: taken, cut short by the endpoint or the cable, or failed. */
  lemma DoneOnce(e: Endpoint, result: int)
    ensures var t := InputDone(e, result);
            var stopped := result == -108 || result == -104 || result == -11 || result == -19;
            && !t.busy && t.buf == e.buf
            && t.ok == e.ok + (if result >= 0 then 1 else 0)
            && t.shutdown == e.shutdown + (if stopped then 1 else 0)
            && t.error == e.error + (if result < 0 && !stopped then 1 else 0)
  {
  }

  /** The kernel completes only what was submitted. */
  predicate LegalAt(e: Endpoint, v: EndpointEvent) { v.Done? ==> e.busy }

  function EndpointStep(e: Endpoint, v: EndpointEvent): Endpoint
    requires |e.buf| == REPORT_LENGTH
  {
    match v
    case Input(report, submits) => SendInput(e, report, submits)
    case Done(result) => InputDone(e, result)
    case Enabled(on) => e.(enabled := on)
  }

  /**
   * Every report offered is in exactly one counter or in flight, and the buffer in flight still holds what was
   * submitted.
   */
  ghost predicate EndpointInv(e: Endpoint) {
    && |e.buf| == REPORT_LENGTH
    && e.calls == e.ok + e.eagain + e.shutdown + e.error + (if e.busy then 1 else 0)
    && (e.busy ==> e.owed <= e.buf)
  }

  predicate LegalEndpointRun(e: Endpoint, vs: seq<EndpointEvent>)
    requires |e.buf| == REPORT_LENGTH
    decreases vs
  {
    vs == [] || (LegalAt(e, vs[0]) && LegalEndpointRun(EndpointStep(e, vs[0]), vs[1..]))
  }

  function EndpointRun(e: Endpoint, vs: seq<EndpointEvent>): Endpoint
    requires |e.buf| == REPORT_LENGTH
    decreases vs
  {
    if vs == [] then e else EndpointRun(EndpointStep(e, vs[0]), vs[1..])
  }

  lemma {:induction false} ReportsOverUsbAreConserved(e: Endpoint, vs: seq<EndpointEvent>)
    requires EndpointInv(e) && LegalEndpointRun(e, vs)
    ensures EndpointInv(EndpointRun(e, vs))
    decreases vs
  {
    if vs != [] {
      assert EndpointInv(EndpointStep(e, vs[0]));
      ReportsOverUsbAreConserved(EndpointStep(e, vs[0]), vs[1..]);
    }
  }

  /** From submission until completion nothing writes the kernel's buffer, whatever is offered in between. */
  lemma {:induction false} BufferIsLeftAloneWhileBusy(e: Endpoint, vs: seq<EndpointEvent>)
    requires |e.buf| == REPORT_LENGTH && e.busy && forall i :: 0 <= i < |vs| ==> !vs[i].Done?
    ensures EndpointRun(e, vs).buf == e.buf && EndpointRun(e, vs).busy && EndpointRun(e, vs).owed == e.owed
    decreases vs
  {
    if vs != [] {
      var e1 := EndpointStep(e, vs[0]);
      assert e1.buf == e.buf && e1.busy && e1.owed == e.owed;
      BufferIsLeftAloneWhileBusy(e1, vs[1..]);
    }
  }

  // ----------------------------------------------------- the same thing, in place

  /** USBHandler's interrupt IN half: the buffer belongs to the kernel while `inBusy`. */
  class InputEndpoint {
    const inBuf: array<byte>
    var enabled: bool
    var inBusy: bool
    var inOk: nat
    var inEagain: nat
    var inShutdown: nat
    var inError: nat
    ghost var calls: nat
    ghost var owed: seq<byte>

    ghost predicate Valid() { inBuf.Length == REPORT_LENGTH }

    ghost function View(): Endpoint
      reads this, inBuf
    {
      Endpoint(enabled, inBusy, inBuf[..], inOk, inEagain, inShutdown, inError, calls, owed)
    }

    constructor ()
      ensures Valid() && fresh(inBuf) && EndpointInv(View()) && View().calls == 0 && !enabled
    {
      inBuf := new byte[REPORT_LENGTH](_ => 0);
      enabled, inBusy, inOk, inEagain, inShutdown, inError := false, false, 0, 0, 0, 0;
      calls, owed := 0, [];
    }

    method DoSendInput(report: seq<byte>, submits: bool)
      requires Valid()
      modifies this, inBuf
      ensures View() == SendInput(old(View()), report, submits)
    {
      calls := calls + 1;
      if !enabled {
        inShutdown := inShutdown + 1;
        return;
      }
      if inBusy {
        inEagain := inEagain + 1;
        return;
      }
      var len := Min(|report|, inBuf.Length);
      CopyInto(inBuf, 0, report[..len]);
      assert inBuf[..] == inBuf[..len] + inBuf[len..];
      assert inBuf[..] == Overlay(old(inBuf[..]), Kept(report));
      if !submits {
        inError := inError + 1;
        return;
      }
      inBusy := true;
      owed := report[..len];
    }

    method OnInputDone(result: int)
      modifies this
      ensures View() == InputDone(old(View()), result)
    {
      inBusy := false;
      if result >= 0 {
        inOk := inOk + 1;
        return;
      }
      if IsShutdown(-result) {
        inShutdown := inShutdown + 1;
      } else {
        inError := inError + 1;
      }
    }

    method SetEnabled(on: bool)
      requires Valid()
      modifies this
      ensures View() == EndpointStep(old(View()), Enabled(on))
    {
      enabled := on;
    }
  }

  class USBHandler {
    const endpoint: InputEndpoint
    var pendingGet: Option<(byte, u16)>
    var answers: map<byte, seq<byte>>
    ghost var pendingNumber: nat
    ghost var requests: nat
    ghost var asked: set<nat>
    ghost var dropped: set<nat>
    ghost var given: seq<seq<byte>>
    ghost var replies: seq<Reply>

    ghost function View(): Gadget
      reads this
    {
      Gadget(if pendingGet.Some? then Some(Pending(pendingGet.value.0, pendingGet.value.1, pendingNumber)) else None,
             answers, requests, asked, dropped, given, replies)
    }

    constructor ()
      ensures View() == IDLE && fresh(endpoint) && fresh(endpoint.inBuf) && endpoint.Valid()
    {
      endpoint := new InputEndpoint();
      pendingGet, answers := None, map[];
      pendingNumber, requests, asked, dropped, given, replies := 0, 0, {}, {}, [], [];
    }

    method BeginGetReport(id: byte, length: u16)
      modifies this
      ensures View() == Begin(old(View()), id, length)
    {
      ghost var n := requests;
      requests := requests + 1;
      if Cacheable(id) {
        if id in answers {
          var bytes := GetReportAnswer(answers[id], length);
          replies := replies + [Reply(n, id, length, bytes, |given|)];
          return;
        }
      }
      dropped := dropped + Waiting(View());
      pendingGet := Some((id, length));
      pendingNumber, asked := n, asked + {n};
    }

    method FinishGetReport(report: seq<byte>)
      requires pendingGet.Some?
      modifies this
      ensures View() == Finish(old(View()), report)
    {
      var (id, length) := pendingGet.value;
      pendingGet := None;
      var bytes := GetReportAnswer(report, length);
      replies := replies + [Reply(pendingNumber, id, length, bytes, |given|)];
    }

    method OnFeatureReport(report: seq<byte>)
      modifies this
      ensures View() == PadAnswer(old(View()), report)
    {
      if |report| < 1 {
        return;
      }
      var id := report[0];
      var slot := report[..Min(|report|, REPORT_LENGTH)];
      answers := answers[id := slot];
      given := given + [report];
      if pendingGet.Some? && pendingGet.value.0 == id {
        FinishGetReport(slot);
      }
    }

    method OnTimeout()
      modifies this
      ensures View() == Timeout(old(View()))
    {
      if pendingGet.Some? {
        FinishGetReport(if pendingGet.value.0 in answers then answers[pendingGet.value.0] else []);
      }
    }

    method DisableGadget()
      requires endpoint.Valid()
      modifies this, endpoint
      ensures View() == Step(old(View()), Detach)
      ensures endpoint.View() == EndpointStep(old(endpoint.View()), Enabled(false))
    {
      endpoint.SetEnabled(false);
      dropped := dropped + Waiting(View());
      pendingGet := None;
    }
  }
}
