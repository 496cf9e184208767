/** Concrete frame sequences worked through the controller. */
module Scenarios {
  import opened Types
  import opened Trace
  import opened Controller
  import opened Frames

  /** A window opened at 800x600 renders three frames with the camera at rest: they blit
      with weights 0, 1 and 2, the counter ends at 3, and one target is allocated. The
      window then grows to 801x600: the target is released and reallocated, and that frame
      blits with weight 0, leaving the counter at 1. */
  lemma ResizeAfterThreeFrames()
    ensures var three := Run(Initial(false), Static(Size(800, 600), 3));
      && Weights(three.events) == [0, 1, 2]
      && three.state.sample == 3
      && three.state.allocations == 1
      && var resized := FrameStep(three.state, Frame(Size(801, 600), false));
        && Weights(resized.events) == [0]
        && resized.state.sample == 1
        && resized.state.allocations == 2
        && resized.state.releases == 1
        && resized.state.target == Some(Size(801, 600))
  {
    var three := Run(Initial(false), Static(Size(800, 600), 3));
    FreshRun(false, Size(800, 600), 3);
    SettledRunCounter(Initial(false), Size(800, 600), 3);
    var w := Weights(three.events);
    assert w == [w[0], w[1], w[2]];
    var resized := FrameStep(three.state, Frame(Size(801, 600), false));
    ResizeFrame(three.state, Frame(Size(801, 600), false));
    FrameStepSpec(three.state, Frame(Size(801, 600), false));
  }
}
