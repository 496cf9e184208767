/** Sequences of engine frames driven through the controller, and what they guarantee
    about the sample counter, the render target and the blend material. */
module Frames {
  import opened Types
  import opened Trace
  import opened Controller

  /** Drives the controller through `frames` in order: the final state and every event, in order. */
  function Run(s: State, frames: seq<Frame>): Step
    decreases |frames|
  {
    if |frames| == 0 then Step(s, [])
    else
      var first := FrameStep(s, frames[0]);
      var rest := Run(first.state, frames[1..]);
      Step(rest.state, first.events + rest.events)
  }

  /** `n` frames at a fixed screen size with a camera that does not move. */
  function Static(screen: Size, n: nat): (frames: seq<Frame>)
    ensures |frames| == n
    ensures forall i :: 0 <= i < n ==> frames[i] == Frame(screen, false)
  {
    seq(n, _ => Frame(screen, false))
  }

  /** The counts kept in the state agree with the events emitted: every allocation and
      release shows up once in the trace, each frame blits exactly once, and the blend
      material is created on the first frame unless it already existed, and never again. */
  lemma {:induction false} RunAccounting(s: State, frames: seq<Frame>)
    ensures var r := Run(s, frames);
      && r.state.allocations == s.allocations + Count(r.events, IsAllocate)
      && r.state.releases == s.releases + Count(r.events, IsRelease)
      && |Weights(r.events)| == |frames|
      && Count(r.events, IsCreateMaterial) == (if s.material || |frames| == 0 then 0 else 1)
      && (|frames| > 0 ==> r.state.material && !r.state.hasChanged)
    ensures |frames| > 0 ==>
      var first := FrameStep(s, frames[0]);
      && Count(first.events, IsCreateMaterial) == (if s.material then 0 else 1)
      && Count(Run(first.state, frames[1..]).events, IsCreateMaterial) == 0
    decreases |frames|
  {
    if |frames| > 0 {
      var first := FrameStep(s, frames[0]);
      var rest := Run(first.state, frames[1..]);
      FrameStepSpec(s, frames[0]);
      RunAccounting(first.state, frames[1..]);
      CountAppend(first.events, rest.events, IsAllocate);
      CountAppend(first.events, rest.events, IsRelease);
      CountAppend(first.events, rest.events, IsCreateMaterial);
      WeightsAppend(first.events, rest.events);
    }
  }

  /** Whatever the frames, at most one render target is live at any time: replaying the
      trace never allocates over a live target, only releases the live one, only binds and
      blits the live one, and ends with the state's target live. */
  lemma {:induction false} RunKeepsOneLiveTarget(s: State, frames: seq<Frame>)
    requires Valid(s)
    ensures Valid(Run(s, frames).state)
    ensures Replay(s.target, Run(s, frames).events) == Some(Run(s, frames).state.target)
    decreases |frames|
  {
    if |frames| > 0 {
      var first := FrameStep(s, frames[0]);
      var rest := Run(first.state, frames[1..]);
      FrameStepSpec(s, frames[0]);
      RunKeepsOneLiveTarget(first.state, frames[1..]);
      ReplayAppend(s.target, first.events, rest.events);
    }
  }

  /** The counter after `n` increments from `c`. */
  function Advance(c: uint32, n: nat): uint32
    decreases n
  {
    if n == 0 then c else Advance(Inc(c), n - 1)
  }

  /** The weights of `n` consecutive samples starting from counter `c`: each one the counter
      advanced once more than the one before. */
  function Counting(c: uint32, n: nat): (w: seq<nat>)
    ensures |w| == n
    decreases n
  {
    if n == 0 then [] else [c] + Counting(Inc(c), n - 1)
  }

  lemma WrapShift(a: nat, i: nat)
    ensures Wrap(Wrap(a + 1) + i) == Wrap(a + 1 + i)
  {
  }

  /** Advancing the counter `n` times adds `n` with the `uint` wrap-around; it adds exactly
      `n` while the sum stays below 2^32. */
  lemma {:induction false} AdvanceWraps(c: uint32, n: nat)
    ensures Advance(c, n) == Wrap(c + n)
    ensures c + n < Modulus ==> Advance(c, n) == c + n
    decreases n
  {
    if n > 0 {
      AdvanceWraps(Inc(c), n - 1);
      WrapShift(c, n - 1);
    }
  }

  /** The i-th of the counted weights is the start advanced i times. */
  lemma {:induction false} CountingAt(c: uint32, n: nat, i: nat)
    requires i < n
    ensures Counting(c, n)[i] == Advance(c, i)
    decreases n
  {
    if i > 0 {
      CountingAt(Inc(c), n - 1, i - 1);
    }
  }

  /** A frame at the target's size with the camera at rest blends with the counter as it
      stands, advances it by one, and allocates and releases nothing. */
  lemma QuietFrame(s: State, screen: Size)
    requires s.target == Some(screen) && !s.hasChanged
    ensures var r := FrameStep(s, Frame(screen, false));
      && r.state.sample == Inc(s.sample)
      && r.state.target == s.target
      && !r.state.hasChanged
      && Weights(r.events) == [s.sample]
      && Count(r.events, IsAllocate) == 0
      && Count(r.events, IsRelease) == 0
  {
    FrameStepSpec(s, Frame(screen, false));
  }

  /** With a fixed screen whose target already exists and a camera at rest, `n` frames leave
      the counter advanced `n` times and keep the target. */
  lemma {:induction false} StaticRun(s: State, screen: Size, n: nat)
    requires s.target == Some(screen) && !s.hasChanged
    ensures var r := Run(s, Static(screen, n));
      && r.state.sample == Advance(s.sample, n)
      && r.state.target == s.target
      && !r.state.hasChanged
    decreases n
  {
    if n > 0 {
      var frames := Static(screen, n);
      var first := FrameStep(s, Frame(screen, false));
      QuietFrame(s, screen);
      assert frames[1..] == Static(screen, n - 1);
      StaticRun(first.state, screen, n - 1);
    }
  }

  /** Under the same conditions the frames blit with the consecutive counter values as weights:
      the first at the counter's starting value, each next one higher by one. */
  lemma {:induction false} StaticRunWeights(s: State, screen: Size, n: nat)
    requires s.target == Some(screen) && !s.hasChanged
    ensures Weights(Run(s, Static(screen, n)).events) == Counting(s.sample, n)
    decreases n
  {
    if n > 0 {
      var frames := Static(screen, n);
      var first := FrameStep(s, frames[0]);
      assert frames[1..] == Static(screen, n - 1);
      var rest := Run(first.state, frames[1..]);
      QuietFrame(s, screen);
      StaticRunWeights(first.state, screen, n - 1);
      WeightsAppend(first.events, rest.events);
    }
  }

  /** Frames at an unchanged screen size never allocate or release a target once it exists. */
  lemma {:induction false} StaticRunAllocatesNothing(s: State, screen: Size, n: nat)
    requires s.target == Some(screen)
    ensures Count(Run(s, Static(screen, n)).events, IsAllocate) == 0
    ensures Count(Run(s, Static(screen, n)).events, IsRelease) == 0
    decreases n
  {
    if n > 0 {
      var frames := Static(screen, n);
      var first := FrameStep(s, frames[0]);
      assert frames[1..] == Static(screen, n - 1);
      var rest := Run(first.state, frames[1..]);
      FrameStepSpec(s, frames[0]);
      StaticRunAllocatesNothing(first.state, screen, n - 1);
      CountAppend(first.events, rest.events, IsAllocate);
      CountAppend(first.events, rest.events, IsRelease);
    }
  }

  /** From any state, the first of `n` frames at one screen size with the camera at rest
      allocates a target exactly when the existing one does not fit, and the frames after it
      allocate nothing. */
  lemma SettledRunAllocatesFirst(s: State, screen: Size, n: nat)
    requires n > 0
    ensures Count(FrameStep(s, Frame(screen, false)).events, IsAllocate) == (if s.target == Some(screen) then 0 else 1)
    ensures Count(Run(FrameStep(s, Frame(screen, false)).state, Static(screen, n - 1)).events, IsAllocate) == 0
  {
    FrameStepSpec(s, Frame(screen, false));
    StaticRunAllocatesNothing(FrameStep(s, Frame(screen, false)).state, screen, n - 1);
  }

  /** Hence the whole run allocates a target at most once: only if the existing one does not
      fit. */
  lemma SettledRunAllocatesOnce(s: State, screen: Size, n: nat)
    requires n > 0
    ensures Count(Run(s, Static(screen, n)).events, IsAllocate) == (if s.target == Some(screen) then 0 else 1)
  {
    var frames := Static(screen, n);
    var first := FrameStep(s, frames[0]);
    assert frames[1..] == Static(screen, n - 1);
    var rest := Run(first.state, frames[1..]);
    SettledRunAllocatesFirst(s, screen, n);
    CountAppend(first.events, rest.events, IsAllocate);
  }

  /** From any state, `n` frames at one screen size with the camera at rest leave a target of
      the screen's size. The first blit weighs 0 after a reallocation or a pending camera
      change and the counter as it stood otherwise, and the counter goes on from there by
      one per frame. */
  lemma SettledRun(s: State, screen: Size, n: nat)
    requires n > 0
    ensures var r := Run(s, Static(screen, n));
      var start := if s.target == Some(screen) && !s.hasChanged then s.sample else 0;
      && r.state.sample == Advance(start, n)
      && Weights(r.events) == Counting(start, n)
      && r.state.target == Some(screen)
  {
    SettledRunCounter(s, screen, n);
    SettledRunWeights(s, screen, n);
  }

  /** From any state, `n` frames at one screen size with the camera at rest leave a target of
      the screen's size and the counter advanced `n` times from its value, or from 0 after a
      reallocation or a pending camera change. */
  lemma SettledRunCounter(s: State, screen: Size, n: nat)
    requires n > 0
    ensures var r := Run(s, Static(screen, n));
      var start := if s.target == Some(screen) && !s.hasChanged then s.sample else 0;
      && r.state.sample == Advance(start, n)
      && r.state.target == Some(screen)
  {
    var frames := Static(screen, n);
    var first := FrameStep(s, frames[0]);
    assert frames[1..] == Static(screen, n - 1);
    StaticRun(first.state, screen, n - 1);
  }

  /** From any state, the weights of `n` frames at one screen size with the camera at rest
      count up by one per frame from the counter, or from 0 after a reallocation or a pending
      camera change. */
  lemma SettledRunWeights(s: State, screen: Size, n: nat)
    requires n > 0
    ensures var start := if s.target == Some(screen) && !s.hasChanged then s.sample else 0;
      Weights(Run(s, Static(screen, n)).events) == Counting(start, n)
  {
    var frames := Static(screen, n);
    var first := FrameStep(s, frames[0]);
    assert frames[1..] == Static(screen, n - 1);
    var rest := Run(first.state, frames[1..]);
    var start := if s.target == Some(screen) && !s.hasChanged then s.sample else 0;
    assert Weights(first.events) == [start] by {
      FrameStepSpec(s, Frame(screen, false));
    }
    StaticRunWeights(first.state, screen, n - 1);
    WeightsAppend(first.events, rest.events);
  }

  /** Starting from a fresh script, `n` frames at one screen size with the camera at rest
      (fewer than 2^32 of them) leave the counter at `n`, blit with weights 0, 1, ..., n-1,
      allocate one target and create the material once. */
  lemma FreshRun(hasChanged: bool, screen: Size, n: nat)
    requires 0 < n < Modulus
    ensures var r := Run(Initial(hasChanged), Static(screen, n));
      && r.state.sample == n
      && |Weights(r.events)| == n
      && (forall i :: 0 <= i < n ==> Weights(r.events)[i] == i)
      && Count(r.events, IsAllocate) == 1
      && r.state.allocations == 1 && r.state.releases == 0
      && Count(r.events, IsCreateMaterial) == 1
  {
    var r := Run(Initial(hasChanged), Static(screen, n));
    SettledRun(Initial(hasChanged), screen, n);
    SettledRunAllocatesOnce(Initial(hasChanged), screen, n);
    AdvanceWraps(0, n);
    RunAccounting(Initial(hasChanged), Static(screen, n));
    RunKeepsOneLiveTarget(Initial(hasChanged), Static(screen, n));
    forall i | 0 <= i < n
      ensures Weights(r.events)[i] == i
    {
      CountingAt(0, n, i);
      AdvanceWraps(0, i);
    }
  }

  /** A frame at a new screen size discards the old target and allocates one the size of the
      screen, and its blit weighs 0 whatever the counter was: the reallocation and the reset
      happen together. */
  lemma ResizeFrame(s: State, f: Frame)
    requires s.target.Some? && s.target != Some(f.screen)
    ensures var r := FrameStep(s, f);
      && Weights(r.events) == [0]
      && r.state.sample == 1
      && Count(r.events, IsAllocate) == 1
      && Count(r.events, IsRelease) == 1
      && r.state.target == Some(f.screen)
  {
    FrameStepSpec(s, f);
  }

  /** A frame after the camera moved blits with weight 0 but keeps a target that still fits. */
  lemma CameraMoveFrame(s: State, f: Frame)
    requires s.target == Some(f.screen) && f.moved
    ensures var r := FrameStep(s, f);
      && Weights(r.events) == [0]
      && r.state.sample == 1
      && Count(r.events, IsAllocate) == 0
      && Count(r.events, IsRelease) == 0
      && r.state.target == s.target
  {
    FrameStepSpec(s, f);
  }
}
