/**
 * The `useMobile` hook: a two-state switch between the mobile and the desktop layout, driven by the
 * viewport width, with a dead band of HYSTERESIS pixels on each side of the breakpoint so that a
 * scrollbar appearing or disappearing near the breakpoint does not make the layout flicker.
 */
module Viewport {

  const DEFAULT_BREAKPOINT: real := 900.0
  const HYSTERESIS: real := 24.0

  /** What `apply` sets the state to, given the previous state and the current width. */
  function NextIsMobile(prev: bool, width: real, breakpoint: real): (r: bool)
    ensures width <= breakpoint - HYSTERESIS ==> r
    ensures width > breakpoint + HYSTERESIS ==> !r
    ensures breakpoint - HYSTERESIS < width <= breakpoint + HYSTERESIS ==> r == prev
  {
    if prev then width <= breakpoint + HYSTERESIS else width <= breakpoint - HYSTERESIS
  }

  /** Reacting twice to the same width is the same as reacting once. */
  lemma ApplyIdempotent(prev: bool, width: real, breakpoint: real)
    ensures NextIsMobile(NextIsMobile(prev, width, breakpoint), width, breakpoint)
         == NextIsMobile(prev, width, breakpoint)
  {
  }

  /** The state after a series of resize events. */
  function ApplyAll(prev: bool, widths: seq<real>, breakpoint: real): bool
    decreases |widths|
  {
    if widths == [] then prev else ApplyAll(NextIsMobile(prev, widths[0], breakpoint), widths[1..], breakpoint)
  }

  predicate InBand(width: real, breakpoint: real) {
    breakpoint - HYSTERESIS < width <= breakpoint + HYSTERESIS
  }

  /** No flicker: widths that stay inside the band never change the layout, however they oscillate. */
  lemma {:induction false} BandKeepsState(prev: bool, widths: seq<real>, breakpoint: real)
    requires forall k :: 0 <= k < |widths| ==> InBand(widths[k], breakpoint)
    ensures ApplyAll(prev, widths, breakpoint) == prev
    decreases |widths|
  {
    if widths != [] {
      BandKeepsState(prev, widths[1..], breakpoint);
    }
  }

  /** Outside the band only the last width matters. */
  lemma {:induction false} LastWidthDecides(prev: bool, widths: seq<real>, breakpoint: real)
    requires widths != [] && !InBand(widths[|widths| - 1], breakpoint)
    ensures ApplyAll(prev, widths, breakpoint) == (widths[|widths| - 1] <= breakpoint - HYSTERESIS)
    decreases |widths|
  {
    if |widths| > 1 {
      LastWidthDecides(NextIsMobile(prev, widths[0], breakpoint), widths[1..], breakpoint);
    }
  }

  /** The hook's state: `isMobile` starts false and is updated by `Apply` on every resize event. */
  class MobileViewport {
    const breakpoint: real
    var isMobile: bool

    constructor (breakpoint: real)
      ensures this.breakpoint == breakpoint && !isMobile
    {
      this.breakpoint := breakpoint;
      isMobile := false;
    }

    /** `useMobile()` with no argument: the breakpoint is 900 pixels. */
    constructor Default()
      ensures breakpoint == DEFAULT_BREAKPOINT && !isMobile
    {
      breakpoint := DEFAULT_BREAKPOINT;
      isMobile := false;
    }

    method Apply(width: real)
      modifies this`isMobile
      ensures isMobile == NextIsMobile(old(isMobile), width, breakpoint)
    {
      if isMobile {
        isMobile := width <= breakpoint + HYSTERESIS;
      } else {
        isMobile := width <= breakpoint - HYSTERESIS;
      }
    }
  }
}
