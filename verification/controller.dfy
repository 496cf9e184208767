/** The per-frame accumulation controller of the ray-tracing camera script: it keeps one
    float render target the size of the screen, counts the samples accumulated into it,
    restarts the count when the camera moves or the target is reallocated, and dispatches
    and blends one sample per frame. */
module Controller {
  import opened Types
  import opened Trace
  import opened Grid

  /** The sample counter is a C# `uint`, whose `++` wraps around silently. */
  const Modulus: int := 0x1_0000_0000
  type uint32 = x: int | 0 <= x < Modulus

  /** The value a non-negative integer takes when stored in a `uint`: its remainder modulo 2^32. */
  function Wrap(x: nat): (r: uint32)
    ensures x < Modulus ==> r == x
  {
    x % Modulus
  }

  /** The `++` of an unsigned 32-bit integer in unchecked arithmetic. */
  function Inc(c: uint32): (r: uint32)
    ensures r == Wrap(c + 1)
  {
    if c == Modulus - 1 then 0 else c + 1
  }

  /** The script's state between engine callbacks:
      - target: the size of the live render target, None before the first frame;
      - sample: the progressive sample counter;
      - hasChanged: the camera transform's changed flag, set by the engine when the camera moves;
      - material: whether the blend material has been created;
      - allocations, releases: how many render targets have been created and released so far. */
  datatype State = State(
    target: Option<Size>,
    sample: uint32,
    hasChanged: bool,
    material: bool,
    allocations: nat,
    releases: nat)

  /** The state of a freshly loaded script: no target, counter 0, no material. */
  function Initial(hasChanged: bool): State
  {
    State(None, 0, hasChanged, false, 0, 0)
  }

  /** At most one target is live, and it is live exactly when one more target has been
      created than released. */
  predicate Valid(s: State)
  {
    if s.target.Some? then s.allocations == s.releases + 1 else s.allocations == s.releases
  }

  /** The state after an engine callback together with the events it caused, in order. */
  datatype Step = Step(state: State, events: seq<Event>)

  /** The reallocation guard: there is no target, or its width or height differs from the screen's. */
  function NeedsRealloc(target: Option<Size>, screen: Size): (r: bool)
    ensures r <==> target != Some(screen)
  {
    target.None? || target.value.width != screen.width || target.value.height != screen.height
  }

  /** Makes sure a target of the screen's size exists, releasing the old one and restarting
      the sample count when it had to be replaced. */
  function InitRenderTexture(s: State, screen: Size): (r: Step)
    ensures r.state.target == Some(screen)
    ensures s.target == Some(screen) ==> r == Step(s, [])
    ensures s.target != Some(screen) ==>
      && r.state == s.(target := Some(screen), sample := 0,
                       allocations := s.allocations + 1,
                       releases := s.releases + (if s.target.Some? then 1 else 0))
      && |r.events| > 0 && r.events[|r.events| - 1] == Allocate(screen)
      && (s.target.Some? ==> r.events[0] == Release(s.target.value))
  {
    if NeedsRealloc(s.target, screen) then
      var next := s.(target := Some(screen), sample := 0, allocations := s.allocations + 1);
      if s.target.Some? then
        Step(next.(releases := s.releases + 1), [Release(s.target.value), Allocate(screen)])
      else
        Step(next, [Allocate(screen)])
    else
      Step(s, [])
  }

  /** What InitRenderTexture emits: one allocation exactly when the target did not fit, a
      release exactly when there was an unfitting target, nothing else; and any previous
      target is released before the new one is created, so at most one is ever live. */
  lemma InitRenderTextureSpec(s: State, screen: Size)
    ensures var r := InitRenderTexture(s, screen);
      && Count(r.events, IsAllocate) == (if s.target == Some(screen) then 0 else 1)
      && Count(r.events, IsRelease) == (if s.target == Some(screen) || s.target.None? then 0 else 1)
      && r.state.allocations == s.allocations + Count(r.events, IsAllocate)
      && r.state.releases == s.releases + Count(r.events, IsRelease)
      && Count(r.events, IsCreateMaterial) == 0
      && Weights(r.events) == []
      && (Valid(s) ==> Valid(r.state) && Replay(s.target, r.events) == Some(r.state.target))
  {
    var r := InitRenderTexture(s, screen);
    WeightsWithoutBlit(r.events);
    if s.target != Some(screen) {
      ReplaySingle(None, Allocate(screen));
      CountSingle(Allocate(screen), IsAllocate);
      CountSingle(Allocate(screen), IsRelease);
      CountSingle(Allocate(screen), IsCreateMaterial);
      if s.target.Some? {
        var previous := s.target.value;
        assert r.events == [Release(previous)] + [Allocate(screen)];
        ReplaySingle(s.target, Release(previous));
        ReplayAppend(s.target, [Release(previous)], [Allocate(screen)]);
        CountSingle(Release(previous), IsAllocate);
        CountSingle(Release(previous), IsRelease);
        CountSingle(Release(previous), IsCreateMaterial);
        CountAppend([Release(previous)], [Allocate(screen)], IsAllocate);
        CountAppend([Release(previous)], [Allocate(screen)], IsRelease);
        CountAppend([Release(previous)], [Allocate(screen)], IsCreateMaterial);
      }
    }
  }

  /** Calling InitRenderTexture twice at one screen size allocates at most once: the second
      call finds a fitting target and changes nothing. */
  lemma InitRenderTextureIdempotent(s: State, screen: Size)
    ensures var first := InitRenderTexture(s, screen);
      && InitRenderTexture(first.state, screen) == Step(first.state, [])
      && first.state.allocations <= s.allocations + 1
  {
  }

  /** The per-frame script update: a pending camera change restarts the count and is consumed. */
  function Update(s: State): (r: State)
    ensures !r.hasChanged
    ensures s.hasChanged ==> r.sample == 0
    ensures !s.hasChanged ==> r == s
    ensures r == s.(sample := r.sample, hasChanged := false)
  {
    if s.hasChanged then s.(sample := 0, hasChanged := false) else s
  }

  /** A camera change resets the counter once: a second update with no new change in
      between leaves the state alone. */
  lemma UpdateIsEdgeTriggered(s: State)
    ensures Update(Update(s)) == Update(s)
    ensures Update(Touch(Update(s), false)) == Update(s)
    ensures Update(s).sample == (if s.hasChanged then 0 else s.sample)
  {
  }

  /** The engine records camera movement in the transform's changed flag; it never clears it. */
  function Touch(s: State, moved: bool): (r: State)
    ensures r.hasChanged <==> s.hasChanged || moved
    ensures r == s.(hasChanged := r.hasChanged)
  {
    s.(hasChanged := s.hasChanged || moved)
  }

  /** Renders one sample: makes sure of the target, binds it, dispatches the kernel over the
      screen in 8-by-8 groups, creates the blend material on first use, blends with the
      counter as weight, and then advances the counter. */
  function Render(s: State, screen: Size): (r: Step)
    ensures r.state.target == Some(screen)
    ensures r.state.material
    ensures r.state.hasChanged == s.hasChanged
    ensures var w := if s.target == Some(screen) then s.sample else 0;
      && |r.events| > 0 && r.events[|r.events| - 1] == Blit(screen, w)
      && r.state.sample == Wrap(w + 1)
  {
    var init := InitRenderTexture(s, screen);
    var t := init.state.target.value;
    Step(init.state.(material := true, sample := Inc(init.state.sample)),
         init.events + SampleEvents(t, init.state.material, init.state.sample))
  }

  /** What a rendered frame emits: a single blit; an allocation exactly when the target did
      not fit; a release exactly when an unfitting target existed; and the material's
      creation exactly when it did not exist yet. */
  lemma RenderSpec(s: State, screen: Size)
    ensures var r := Render(s, screen);
      var w := if s.target == Some(screen) then s.sample else 0;
      && Weights(r.events) == [w]

      && Count(r.events, IsAllocate) == (if s.target == Some(screen) then 0 else 1)
      && Count(r.events, IsRelease) == (if s.target == Some(screen) || s.target.None? then 0 else 1)
      && r.state.allocations == s.allocations + Count(r.events, IsAllocate)
      && r.state.releases == s.releases + Count(r.events, IsRelease)
      && Count(r.events, IsCreateMaterial) == (if s.material then 0 else 1)
  {
    var init := InitRenderTexture(s, screen);
    var sample := SampleEvents(screen, s.material, init.state.sample);
    var e := init.events + sample;
    InitRenderTextureSpec(s, screen);
    SampleEventsCounts(screen, s.material, init.state.sample);
    SampleEventsWeights(screen, s.material, init.state.sample);
    CountAppend(init.events, sample, IsAllocate);
    CountAppend(init.events, sample, IsRelease);
    CountAppend(init.events, sample, IsCreateMaterial);
    WeightsAppend(init.events, sample);
  }

  /** Every rendered frame dispatches the kernel exactly once, over ceil(width / 8) by
      ceil(height / 8) by 1 thread groups, right after binding the target (its only bind)
      and before its blit. */
  lemma RenderDispatchesBeforeBlit(s: State, screen: Size)
    ensures var e := Render(s, screen).events;
      && (exists i :: 0 < i < |e| - 1 && e[i - 1] == Bind(screen)
            && e[i] == Dispatch(GroupCount(screen.width), GroupCount(screen.height), 1))
      && Count(e, IsDispatch) == 1
      && Count(e, IsBind) == 1
  {
    var init := InitRenderTexture(s, screen);
    var sample := SampleEvents(screen, s.material, init.state.sample);
    var e := Render(s, screen).events;
    var i := |init.events| + 1;
    assert e[i - 1] == Bind(screen) && e[i] == Dispatch(GroupCount(screen.width), GroupCount(screen.height), 1);
    SampleEventsDispatchOnce(screen, s.material, init.state.sample);
    CountNone(init.events, IsDispatch);
    CountNone(init.events, IsBind);
    CountAppend(init.events, sample, IsDispatch);
    CountAppend(init.events, sample, IsBind);
  }

  /** A rendered frame releases a target only while it is live, allocates only when none is,
      and binds and blits only the live one; a valid state stays valid. */
  lemma RenderKeepsOneLiveTarget(s: State, screen: Size)
    requires Valid(s)
    ensures Valid(Render(s, screen).state)
    ensures Replay(s.target, Render(s, screen).events) == Some(Render(s, screen).state.target)
  {
    var init := InitRenderTexture(s, screen);
    var sample := SampleEvents(screen, s.material, init.state.sample);
    InitRenderTextureSpec(s, screen);
    SampleEventsReplay(screen, s.material, init.state.sample);
    ReplayAppend(s.target, init.events, sample);
  }

  /** The events of one sample once the target of size `t` exists: the target is bound as the
      kernel output, the kernel is dispatched, the material is created if it does not exist
      yet, and the target is blended onto the destination with weight `weight`. */
  function SampleEvents(t: Size, material: bool, weight: nat): seq<Event>
  {
    var dispatch := Dispatch(GroupCount(t.width), GroupCount(t.height), 1);
    if material then [Bind(t), dispatch, Blit(t, weight)]
    else [Bind(t), dispatch, CreateMaterial, Blit(t, weight)]
  }

  /** A sample's events create the material only when it is missing and allocate and
      release nothing. */
  lemma SampleEventsCounts(t: Size, material: bool, weight: nat)
    ensures var e := SampleEvents(t, material, weight);
      && Count(e, IsAllocate) == 0 && Count(e, IsRelease) == 0
      && Count(e, IsCreateMaterial) == (if material then 0 else 1)
  {
    var e := SampleEvents(t, material, weight);
    CountNone(e, IsAllocate);
    CountNone(e, IsRelease);
    if !material {
      assert e == e[..2] + [CreateMaterial] + [e[3]];
      CountNone(e[..2], IsCreateMaterial);
      CountNone([e[3]], IsCreateMaterial);
      CountSingle(CreateMaterial, IsCreateMaterial);
      CountAppend(e[..2], [CreateMaterial], IsCreateMaterial);
      CountAppend(e[..2] + [CreateMaterial], [e[3]], IsCreateMaterial);
    } else {
      CountNone(e, IsCreateMaterial);
    }
  }

  /** A sample's events bind the target once and dispatch the kernel once. */
  lemma SampleEventsDispatchOnce(t: Size, material: bool, weight: nat)
    ensures var e := SampleEvents(t, material, weight);
      && Count(e, IsBind) == 1 && Count(e, IsDispatch) == 1
  {
    var e := SampleEvents(t, material, weight);
    assert e == [e[0]] + [e[1]] + e[2..];
    CountSingle(e[0], IsBind);
    CountSingle(e[1], IsBind);
    CountSingle(e[0], IsDispatch);
    CountSingle(e[1], IsDispatch);
    CountNone(e[2..], IsBind);
    CountNone(e[2..], IsDispatch);
    CountAppend([e[0]], [e[1]], IsBind);
    CountAppend([e[0]] + [e[1]], e[2..], IsBind);
    CountAppend([e[0]], [e[1]], IsDispatch);
    CountAppend([e[0]] + [e[1]], e[2..], IsDispatch);
  }

  /** A sample's events blit exactly once, with the given weight. */
  lemma SampleEventsWeights(t: Size, material: bool, weight: nat)
    ensures Weights(SampleEvents(t, material, weight)) == [weight]
  {
    var e := SampleEvents(t, material, weight);
    var n := |e|;
    assert e == e[..n - 1] + [Blit(t, weight)];
    WeightsWithoutBlit(e[..n - 1]);
    WeightsAppend(e[..n - 1], [Blit(t, weight)]);
    WeightsSingle(Blit(t, weight));
  }

  /** A sample's events use only the live target. */
  lemma SampleEventsReplay(t: Size, material: bool, weight: nat)
    ensures Replay(Some(t), SampleEvents(t, material, weight)) == Some(Some(t))
  {
    ReplayUsesOnly(t, SampleEvents(t, material, weight));
  }

  /** One frame's input: the screen size and whether the camera moved since the last frame. */
  datatype Frame = Frame(screen: Size, moved: bool)

  /** One engine frame: the camera movement is recorded, the script updates, then renders.
      The blit weighs 0 whenever the camera moved or the target was reallocated, and the
      counter as it stood otherwise; the changed flag is consumed. */
  function FrameStep(s: State, f: Frame): (r: Step)
    ensures !r.state.hasChanged
    ensures r.state.target == Some(f.screen)
    ensures r.state.material
    ensures var w := if s.target == Some(f.screen) && !s.hasChanged && !f.moved then s.sample else 0;
      && |r.events| > 0 && r.events[|r.events| - 1] == Blit(f.screen, w)
      && r.state.sample == Wrap(w + 1)
  {
    Render(Update(Touch(s, f.moved)), f.screen)
  }

  /** What a frame emits, as RenderSpec states it, in terms of the state before the frame. */
  lemma FrameStepSpec(s: State, f: Frame)
    ensures var r := FrameStep(s, f);
      var w := if s.target == Some(f.screen) && !s.hasChanged && !f.moved then s.sample else 0;
      && Weights(r.events) == [w]
      && Count(r.events, IsAllocate) == (if s.target == Some(f.screen) then 0 else 1)
      && Count(r.events, IsRelease) == (if s.target == Some(f.screen) || s.target.None? then 0 else 1)
      && r.state.allocations == s.allocations + Count(r.events, IsAllocate)
      && r.state.releases == s.releases + Count(r.events, IsRelease)
      && Count(r.events, IsCreateMaterial) == (if s.material then 0 else 1)
      && Count(r.events, IsDispatch) == 1 && Count(r.events, IsBind) == 1
      && (Valid(s) ==> Valid(r.state) && Replay(s.target, r.events) == Some(r.state.target))
  {
    var u := Update(Touch(s, f.moved));
    RenderSpec(u, f.screen);
    RenderDispatchesBeforeBlit(u, f.screen);
    if Valid(s) {
      RenderKeepsOneLiveTarget(u, f.screen);
    }
  }
}
