/** Reference readings of an event trace, independent of the controller that emits it:
    which render target is live after replaying the trace, how many events of a kind
    it holds, and which blend weights it passes. */
module Trace {
  import opened Types

  /** One event replayed against the live target `live`: None when the event misuses the
      target (allocates while one is live, releases one that is not live, binds or blits a
      target other than the live one), otherwise the live target after it. */
  function ReplayEvent(live: Option<Size>, e: Event): Option<Option<Size>>
  {
    match e
    case Release(t) => if live == Some(t) then Some(None) else None
    case Allocate(t) => if live == None then Some(Some(t)) else None
    case Bind(t) => if live == Some(t) then Some(live) else None
    case Blit(t, _) => if live == Some(t) then Some(live) else None
    case Dispatch(_, _, _) => Some(live)
    case CreateMaterial => Some(live)
  }

  /** Replays `events` against the live target `live`: None when some event misuses the
      target, otherwise the live target after the last event. A trace that replays to Some
      never holds two live targets at once and only ever uses the live one. */
  function Replay(live: Option<Size>, events: seq<Event>): Option<Option<Size>>
    decreases |events|
  {
    if |events| == 0 then Some(live)
    else
      match ReplayEvent(live, events[0])
      case None => None
      case Some(l) => Replay(l, events[1..])
  }

  lemma ReplaySingle(live: Option<Size>, e: Event)
    ensures Replay(live, [e]) == ReplayEvent(live, e)
  {
  }

  /** Replaying a concatenation replays the first part, then the second from where the first ended. */
  lemma {:induction false} ReplayAppend(live: Option<Size>, a: seq<Event>, b: seq<Event>)
    ensures Replay(live, a + b) ==
      match Replay(live, a)
      case None => None
      case Some(l) => Replay(l, b)
    decreases |a|
  {
    if |a| == 0 {
      assert a + b == b;
    } else {
      assert (a + b)[0] == a[0];
      assert (a + b)[1..] == a[1..] + b;
      match ReplayEvent(live, a[0])
      case None =>
      case Some(l) => ReplayAppend(l, a[1..], b);
    }
  }

  /** Events that only use the live target `t` leave it live. */
  lemma {:induction false} ReplayUsesOnly(t: Size, events: seq<Event>)
    requires forall i :: 0 <= i < |events| ==> ReplayEvent(Some(t), events[i]) == Some(Some(t))
    ensures Replay(Some(t), events) == Some(Some(t))
    decreases |events|
  {
    if |events| > 0 {
      ReplayUsesOnly(t, events[1..]);
    }
  }

  predicate IsAllocate(e: Event) { e.Allocate? }
  predicate IsRelease(e: Event) { e.Release? }
  predicate IsCreateMaterial(e: Event) { e.CreateMaterial? }
  predicate IsBind(e: Event) { e.Bind? }
  predicate IsDispatch(e: Event) { e.Dispatch? }

  /** The number of events in `events` of the kind `kind` selects. */
  function Count(events: seq<Event>, kind: Event -> bool): (n: nat)
    ensures n <= |events|
    decreases |events|
  {
    if |events| == 0 then 0
    else (if kind(events[0]) then 1 else 0) + Count(events[1..], kind)
  }

  /** A trace with no event of a kind counts none of them. */
  lemma {:induction false} CountNone(events: seq<Event>, kind: Event -> bool)
    requires forall i :: 0 <= i < |events| ==> !kind(events[i])
    ensures Count(events, kind) == 0
    decreases |events|
  {
    if |events| > 0 {
      CountNone(events[1..], kind);
    }
  }

  lemma CountSingle(e: Event, kind: Event -> bool)
    ensures Count([e], kind) == if kind(e) then 1 else 0
  {
  }

  lemma {:induction false} CountAppend(a: seq<Event>, b: seq<Event>, kind: Event -> bool)
    ensures Count(a + b, kind) == Count(a, kind) + Count(b, kind)
    decreases |a|
  {
    if |a| == 0 {
      assert a + b == b;
    } else {
      assert (a + b)[0] == a[0];
      assert (a + b)[1..] == a[1..] + b;
      CountAppend(a[1..], b, kind);
    }
  }

  /** The blend weights of the trace's blits, in order. */
  function Weights(events: seq<Event>): (w: seq<nat>)
    ensures |w| <= |events|
    decreases |events|
  {
    if |events| == 0 then []
    else (if events[0].Blit? then [events[0].weight] else []) + Weights(events[1..])
  }

  lemma WeightsSingle(e: Event)
    ensures Weights([e]) == if e.Blit? then [e.weight] else []
  {
  }

  /** A trace without blits passes no weights. */
  lemma {:induction false} WeightsWithoutBlit(events: seq<Event>)
    requires forall i :: 0 <= i < |events| ==> !events[i].Blit?
    ensures Weights(events) == []
    decreases |events|
  {
    if |events| > 0 {
      WeightsWithoutBlit(events[1..]);
    }
  }

  lemma {:induction false} WeightsAppend(a: seq<Event>, b: seq<Event>)
    ensures Weights(a + b) == Weights(a) + Weights(b)
    decreases |a|
  {
    if |a| == 0 {
      assert a + b == b;
    } else {
      assert (a + b)[0] == a[0];
      assert (a + b)[1..] == a[1..] + b;
      WeightsAppend(a[1..], b);
    }
  }
}
