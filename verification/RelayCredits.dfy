/**
 * The relay's credits against the controller they are about: what src/bluetooth/HidRelay.cpp and HciEvents.cpp
 * do to an AclFlowControl, event by event, so that what is proved of its runs holds of the relay's.
 */
module RelayCredits {
  import opened Bytes
  import AclFlow
  import Framing
  import Relay
  import Reports

  /** Whether a report about to be sent really leaves: it fits its frame and the socket takes it. */
  predicate Leaves(r: Relay.State, report: seq<byte>, wrote: bool)
    requires Relay.Readable(report, r.full)
  {
    wrote && |Relay.Payload(report, r.full)| <= 4096 - 9
  }

  function FreesOf(entries: seq<AclFlow.Entry>, now: int): seq<AclFlow.FlowEvent>
    decreases entries
  {
    if entries == [] then []
    else [AclFlow.Frees(entries[0].handle, entries[0].done, now)] + FreesOf(entries[1..], now)
  }

  /** What an event of the relay is to its credits. */
  function CreditEvents(r: Relay.State, e: Relay.Event): seq<AclFlow.FlowEvent>
    requires Relay.LegalEvent(r, e)
  {
    match e
    case PadReport(report, wrote, now) =>
      if r.dcid == 0 || Reports.Opaque(report) then []
      else [AclFlow.Gated(r.handle, Relay.Sends(r, report, now) && Leaves(r, report, wrote), now)]
    case Completions(body, wrote, now) =>
      if body == [] then []
      else
        FreesOf(AclFlow.EntriesFrom(body, 0), now) +
        if r.held == [] then []
        else
          [AclFlow.Gated(r.handle,
                         Relay.Flushes(Relay.Replenished(r, body, now), now) && Leaves(r, r.held, wrote), now)]
    case OtherFrame => [AclFlow.Ungated(r.handle)]
    case LinkDown(h) => [AclFlow.LinkLost(h)]
    case PoolKnown(n) => [AclFlow.PoolKnown(n)]
    case _ => []
  }

  function CreditRun(r: Relay.State, es: seq<Relay.Event>): seq<AclFlow.FlowEvent>
    requires Relay.LegalRun(r, es)
    decreases es
  {
    if es == [] then [] else CreditEvents(r, es[0]) + CreditRun(Relay.Step(r, es[0]), es[1..])
  }

  lemma {:induction false} WorldConcat(w: AclFlow.World, a: seq<AclFlow.FlowEvent>, b: seq<AclFlow.FlowEvent>)
    requires AclFlow.LegalRun(w, a + b)
    ensures AclFlow.LegalRun(w, a) && AclFlow.LegalRun(AclFlow.RunWorld(w, a), b)
    ensures AclFlow.RunWorld(w, a + b) == AclFlow.RunWorld(AclFlow.RunWorld(w, a), b)
    decreases a
  {
    if a == [] {
      assert a + b == b;
    } else {
      assert (a + b)[1..] == a[1..] + b;
      WorldConcat(AclFlow.Next(w, a[0]), a[1..], b);
    }
  }

  lemma {:induction false} FreesComplete(w: AclFlow.World, entries: seq<AclFlow.Entry>, now: int)
    requires AclFlow.LegalRun(w, FreesOf(entries, now))
    ensures AclFlow.RunWorld(w, FreesOf(entries, now)).flow == AclFlow.CompleteAll(w.flow, entries, now)
    decreases entries
  {
    if entries != [] {
      assert FreesOf(entries, now)[1..] == FreesOf(entries[1..], now);
      FreesComplete(AclFlow.Next(w, FreesOf(entries, now)[0]), entries[1..], now);
    }
  }

  lemma OneEvent(w: AclFlow.World, e: AclFlow.FlowEvent)
    requires AclFlow.LegalRun(w, [e])
    ensures AclFlow.Legal(w, e) && AclFlow.RunWorld(w, [e]).flow == AclFlow.Effect(w, e).flow
  {
    assert [e][1..] == [];
    var v := AclFlow.Next(w, e);
    assert AclFlow.RunWorld(v, []) == v;
  }

  lemma ArrivalCredits(r: Relay.State, report: seq<byte>, wrote: bool, now: int, w: AclFlow.World)
    requires Relay.LegalEvent(r, Relay.PadReport(report, wrote, now)) && w.flow == r.flow
    requires AclFlow.LegalRun(w, CreditEvents(r, Relay.PadReport(report, wrote, now)))
    ensures AclFlow.RunWorld(w, CreditEvents(r, Relay.PadReport(report, wrote, now))).flow
         == Relay.Arrive(r, report, wrote, now).flow
  {
    if r.dcid != 0 && !Reports.Opaque(report) {
      OneEvent(w, CreditEvents(r, Relay.PadReport(report, wrote, now))[0]);
      if Relay.Sends(r, report, now) {
        var payload := Relay.Payload(report, r.full);
        Framing.FrameFits(r.handle, r.dcid, payload[..1], payload[1..]);
      }
    }
  }

  lemma FlushCredits(r: Relay.State, wrote: bool, now: int, w: AclFlow.World)
    requires r.held != [] && (Relay.Flushes(r, now) ==> Relay.Readable(r.held, r.full)) && w.flow == r.flow
    requires var e := AclFlow.Gated(r.handle, Relay.Flushes(r, now) && Leaves(r, r.held, wrote), now);
             AclFlow.LegalRun(w, [e])
    ensures var e := AclFlow.Gated(r.handle, Relay.Flushes(r, now) && Leaves(r, r.held, wrote), now);
            AclFlow.RunWorld(w, [e]).flow == Relay.Flush(r, wrote, now).flow
  {
    OneEvent(w, AclFlow.Gated(r.handle, Relay.Flushes(r, now) && Leaves(r, r.held, wrote), now));
    if Relay.Flushes(r, now) {
      var payload := Relay.Payload(r.held, r.full);
      Framing.FrameFits(r.handle, r.dcid, payload[..1], payload[1..]);
    }
  }

  lemma CompletionCredits(r: Relay.State, body: seq<byte>, wrote: bool, now: int, w: AclFlow.World)
    requires Relay.LegalEvent(r, Relay.Completions(body, wrote, now)) && w.flow == r.flow
    requires AclFlow.LegalRun(w, CreditEvents(r, Relay.Completions(body, wrote, now)))
    ensures AclFlow.RunWorld(w, CreditEvents(r, Relay.Completions(body, wrote, now))).flow
         == Relay.Step(r, Relay.Completions(body, wrote, now)).flow
  {
    if body != [] {
      var entries := AclFlow.EntriesFrom(body, 0);
      var frees := FreesOf(entries, now);
      assert frees + [] == frees;
      if r.held == [] {
        FreesComplete(w, entries, now);
      } else {
        var t := Relay.Replenished(r, body, now);
        WorldConcat(w, frees, CreditEvents(r, Relay.Completions(body, wrote, now))[|frees|..]);
        FreesComplete(w, entries, now);
        FlushCredits(t, wrote, now, AclFlow.RunWorld(w, frees));
      }
    }
  }

  lemma StepCredits(r: Relay.State, e: Relay.Event, w: AclFlow.World)
    requires Relay.LegalEvent(r, e) && w.flow == r.flow && AclFlow.LegalRun(w, CreditEvents(r, e))
    ensures AclFlow.RunWorld(w, CreditEvents(r, e)).flow == Relay.Step(r, e).flow
  {
    match e
    case PadReport(report, wrote, now) => ArrivalCredits(r, report, wrote, now, w);
    case Completions(body, wrote, now) => CompletionCredits(r, body, wrote, now, w);
    case OtherFrame => OneEvent(w, AclFlow.Ungated(r.handle));
    case LinkDown(h) => OneEvent(w, AclFlow.LinkLost(h));
    case PoolKnown(n) => OneEvent(w, AclFlow.PoolKnown(n));
    case _ =>
  }

  /** The relay's credits over any run are those of its frames, completions and lost links. */
  lemma {:induction false} RunCredits(r: Relay.State, es: seq<Relay.Event>, w: AclFlow.World)
    requires Relay.LegalRun(r, es) && w.flow == r.flow && AclFlow.LegalRun(w, CreditRun(r, es))
    ensures AclFlow.RunWorld(w, CreditRun(r, es)).flow == Relay.Run(r, es).flow
    decreases es
  {
    if es != [] {
      var first, rest := CreditEvents(r, es[0]), CreditRun(Relay.Step(r, es[0]), es[1..]);
      WorldConcat(w, first, rest);
      StepCredits(r, es[0], w);
      RunCredits(Relay.Step(r, es[0]), es[1..], AclFlow.RunWorld(w, first));
    }
  }

  /**
   * In every run of the relay against a controller that completes only what it holds, the relay's total is never
   * more than the controller really holds and falls short of it by at most what was written off.
   */
  lemma RelayNeverOverestimates(flow: AclFlow.Flow, at: int, es: seq<Relay.Event>)
    requires var f := AclFlow.Start(flow, at).flow;
             Relay.LegalRun(Relay.Initial(f), es)
             && AclFlow.LegalRun(AclFlow.Start(flow, at), CreditRun(Relay.Initial(f), es))
    ensures var f := AclFlow.Start(flow, at).flow;
            var w := AclFlow.RunWorld(AclFlow.Start(flow, at), CreditRun(Relay.Initial(f), es));
            && Relay.Run(Relay.Initial(f), es).flow == w.flow
            && 0 <= AclFlow.Sum(w.held) - Relay.Run(Relay.Initial(f), es).flow.total <= w.forgiven
  {
    var f := AclFlow.Start(flow, at).flow;
    RunCredits(Relay.Initial(f), es, AclFlow.Start(flow, at));
    AclFlow.CreditDriftIsBounded(flow, at, CreditRun(Relay.Initial(f), es));
  }
}
