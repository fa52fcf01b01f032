/** Worked examples of the fit and of the manager's protocol, stated over concrete values. */
module Scenarios {
  import opened Wrappers
  import opened Geometry
  import Fit
  import opened Canvases
  import opened Lifecycle

  /**
   A 4:3 reference of 800x600 shown in a 400x400 box at ratio 2: backing
   800x800, letterboxed vertically with 50 units above and below, at half
   scale.
   */
  lemma SquareBoxFourByThree()
    ensures Fit.Reshape(Size(400.0, 400.0), 2.0, Size(800.0, 600.0))
         == Fit.Placement(Size(800.0, 800.0), 0.0, 50.0, 0.5)
  {
    Fit.TallBoxLetterboxesVertically(Size(400.0, 400.0), 2.0, Size(800.0, 600.0));
  }

  /** A canvas with no explicit size and a 300x200 resolution gets a 300x200 style size. */
  lemma DefaultSizeFromResolution(s: State, host: Host, c: Canvas, draw: Drawing)
    requires Wf(s) && c !in s.canvases && Ready(host, c)
    requires c in s.elements && s.elements[c].backing == Size(300.0, 200.0)
    ensures ManageCanvas(s, host, c, draw, SentinelSize).elements[c].style == Some(Size(300.0, 200.0))
  {
  }

  /**
   Two managed canvases; the ratio changes from 1 to 2 and then to 3.
   Each change redraws both canvases once and leaves exactly one query
   armed, at the new ratio.
   */
  lemma TwoCanvasesTwoDensityChanges(m: State, h2: Host, h3: Host)
    requires Wf(m) && m.canvases == [1, 2] && m.watch.query.ratio == 1.0
    requires h2.dpr == 2.0 && h3.dpr == 3.0
    requires Ready(h2, 1) && Ready(h2, 2) && Ready(h3, 1) && Ready(h3, 2)
    ensures var d2 := DeviceChange(m, h2);
            var d3 := DeviceChange(d2, h3);
            && Targets(d2.log[|m.log|..]) == [1, 2]
            && d2.watch.listening == {d2.watch.query} && d2.watch.query.ratio == 2.0
            && Targets(d3.log[|d2.log|..]) == [1, 2]
            && d3.watch.listening == {d3.watch.query} && d3.watch.query.ratio == 3.0
  {
    DeviceChangeRedrawsRegistry(m, h2);
    DeviceChangeRedrawsRegistry(DeviceChange(m, h2), h3);
  }
}
