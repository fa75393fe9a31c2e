/** The input feed's operations as they run when nothing else touches the page (src/input/InputFeed.h). */
module FeedPage {
  import opened Bytes
  import opened InputFeed

  /**
   * latest: `valid` is whether the page is mapped with the right magic and version, `attempt` says what each
   * attempt loads from a page that may change under it. The first that settles is the answer; on a valid page
   * there is none only when all sixteen fail.
   */
  method Latest(valid: bool, attempt: nat -> Attempt) returns (snap: Option<seq<Cell>>)
    ensures snap.None? <==> !valid || forall k :: 0 <= k < ATTEMPTS ==> !Settles(attempt(k))
    ensures snap.Some? ==>
              exists k :: && 0 <= k < ATTEMPTS && Settles(attempt(k)) && snap == Some(attempt(k).got)
                          && forall j :: 0 <= j < k ==> !Settles(attempt(j))
  {
    if !valid {
      return None;
    }
    var k := 0;
    while k < ATTEMPTS
      invariant 0 <= k <= ATTEMPTS && forall j :: 0 <= j < k ==> !Settles(attempt(j))
    {
      var loaded := attempt(k);
      if loaded.before % 2 == 0 && loaded.after == loaded.before {
        assert Settles(attempt(k));
        return Some(loaded.got);
      }
      k := k + 1;
    }
    return None;
  }

  class SharedPage {
    var seqno: nat
    const cells: array<Cell>
    var head: nat
    const events: array<Event>
    var lastButtons: Mask
    ghost var bodies: seq<Body>
    ghost var log: seq<Event>

    /** The ring's slots are the newest 256 events ever pushed. */
    ghost predicate RingHolds()
      reads this, events
    {
      && events.Length == EVENTS && head == |log|
      && (forall i: nat :: i < head && head <= i + EVENTS ==> events[Slot(i)] == log[i])
    }

    ghost predicate Valid()
      reads this, cells, events
    {
      && cells.Length == CELLS
      && cells[REPORTS] == Number(|bodies|) && Coherent(cells[..], bodies)
      && RingHolds()
      && lastButtons == Before(bodies) && Masks(log) == Changes(bodies)
    }

    constructor ()
      ensures Valid() && fresh(cells) && fresh(events)
      ensures seqno == 0 && bodies == [] && log == [] && cells[..] == Zeroed()
    {
      seqno, head, lastButtons := 0, 0, 0;
      cells := new Cell[CELLS](i => if i == MONOTONIC || i == REPORTS || i >= LINK_OFF then Number(0) else Byte(0));
      events := new Event[EVENTS](_ => Event(0, 0));
      bodies, log := [], [];
      new;
      assert cells[..] == Zeroed();
      assert Masks([]) == [];
    }

    /** Copies the cells from `first` on. */
    method Fill(first: nat, target: seq<Cell>)
      requires cells.Length == |target| == CELLS && first <= CELLS && cells[..first] == target[..first]
      modifies cells
      ensures cells[..] == target
    {
      var i := first;
      while i < CELLS
        invariant first <= i <= CELLS && cells[..i] == target[..i]
      {
        cells[i] := target[i];
        i := i + 1;
        assert cells[..i] == cells[..i - 1] + [target[i - 1]];
        assert target[..i] == target[..i - 1] + [target[i - 1]];
      }
      assert cells[..i] == cells[..] && target[..i] == target;
    }

    method PublishLink(link: Link)
      requires Valid()
      modifies this`seqno, cells
      ensures Valid() && seqno == old(seqno) + 2
      ensures cells[..] == WithLink(old(cells[..]), link) && Shows(old(cells[..]), cells[..], LinkOnly(link))
    {
      seqno := seqno + 1;
      AppliedShows(cells[..], LinkOnly(link));
      Fill(LINK_OFF, WithLink(cells[..], link));
      seqno := seqno + 1;
      assert cells[REPORTS] == cells[..][REPORTS];
    }

    /** The block, and then an event exactly when the buttons differ from those of the report before. */
    method Publish(body: Body, monotonic: int, link: Link, stamp: int)
      requires Valid()
      modifies this, cells, events
      ensures Valid() && seqno == old(seqno) + 2
      ensures bodies == old(bodies) + [body]
      ensures cells[..] == Content(body, monotonic, |bodies|, link)
      ensures Shows(old(cells[..]), cells[..], Report(body, monotonic, link, stamp))
      ensures var buttons := PackButtons(body);
              log == old(log) + if buttons == Before(old(bodies)) then [] else [Event(stamp, buttons)]
    {
      seqno := seqno + 1;
      AppliedShows(cells[..], Report(body, monotonic, link, stamp));
      Fill(0, Content(body, monotonic, cells[REPORTS].n + 1, link));
      seqno := seqno + 1;
      bodies := bodies + [body];
      assert cells[REPORTS] == cells[..][REPORTS];
      assert bodies[..|bodies| - 1] == old(bodies);
      var buttons := PackButtons(body);
      if buttons == lastButtons {
        return;
      }
      lastButtons := buttons;
      PushEvent(Event(stamp, buttons));
    }

    method PushEvent(e: Event)
      requires RingHolds()
      modifies this`head, this`log, events
      ensures RingHolds() && log == old(log) + [e]
      ensures Masks(log) == Masks(old(log)) + [e.buttons]
    {
      events[head % EVENTS] := e;
      head := head + 1;
      log := log + [e];
      forall i: nat | i < head && head <= i + EVENTS
        ensures events[Slot(i)] == log[i]
      {
        if i < head - 1 {
          SlotsDiffer(i, head - 1);
        }
      }
    }

    /**
     * The newest min(256, head - cursor) events in order, the rest counted as lost; a cursor past the head means
     * the relay restarted.
     */
    method Drain(cursor: nat) returns (next: nat, lost: nat, delivered: seq<Event>)
      requires RingHolds()
      ensures next == head
      ensures var from := if head < cursor then 0 else cursor;
              && |delivered| + lost == head - from
              && |delivered| == (if head - from <= EVENTS then head - from else EVENTS)
              && delivered == log[head - |delivered|..]
    {
      next, lost, delivered := cursor, 0, [];
      if head < next {
        next := 0;
      }
      if head - next > EVENTS {
        lost := head - next - EVENTS;
        next := head - EVENTS;
      }
      ghost var first := next;
      while next < head
        invariant first <= next <= head && head <= first + EVENTS
        invariant delivered == log[first..next]
      {
        assert events[Slot(next)] == log[next];
        delivered := delivered + [events[next % EVENTS]];
        next := next + 1;
        assert log[first..next] == log[first..next - 1] + [log[next - 1]];
      }
    }
  }
}
