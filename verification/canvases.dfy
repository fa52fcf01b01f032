/**
 The management state machine of canvas.mjs: the registry of managed
 canvases, the resize-observer membership, the metadata attached to each
 canvas, and the one-shot media query that reports device pixel ratio
 changes. Every operation is a function from state to state; each call of
 a drawing function by `reshape` is appended to a log, together with the
 placement it painted through.

 The host (layout, `devicePixelRatio`, the measurement taken while the
 default-size probe is applied) is an input to the operations.
 */
module Canvases {
  import opened Wrappers
  import opened Geometry
  import Fit

  /** Identity of a canvas element on the page. */
  type Canvas = nat

  /** Identity of a drawing function passed to `manageCanvas`. */
  type Drawing = nat

  /** The width and height, in CSS pixels, of the low-specificity probe rule. */
  const SentinelSize: real := 12345.0

  /** The properties `manageCanvas` attaches to a canvas; `None` stands for `undefined`. */
  datatype Meta = Meta(originalWidth: Option<real>, originalHeight: Option<real>, drawing: Option<Drawing>)

  const Unset: Meta := Meta(None, None, None)

  /** Host-owned properties of a canvas element: its `width`/`height` attributes and its explicit style size. */
  datatype Element = Element(backing: Size, style: Option<Size>)

  /** A `(resolution: <ratio>dppx)` media query list; `id` tells apart the objects successive `matchMedia` calls return. */
  datatype Query = Query(id: nat, ratio: real)

  /**
   The density watcher: the query held in `mediaQuery`, the queries that
   carry the `deviceChange` listener, and the next fresh query id.
   */
  datatype Watch = Watch(query: Query, listening: set<Query>, next: nat)

  /**
   One call of a drawing function by `reshape`, with what the fit was
   computed from: the client size, the pixel ratio and the reference
   resolution read at that moment.
   */
  datatype Redraw = Redraw(canvas: Canvas, drawing: Drawing, client: Size, dpr: real, reference: Size)

  /** What the host reports during an operation: `devicePixelRatio` and each canvas's client size. */
  datatype Host = Host(dpr: real, client: map<Canvas, Size>)

  datatype State = State(
    canvases: seq<Canvas>,          // the managed set, in insertion order
    observed: set<Canvas>,          // targets of the resize observer
    meta: map<Canvas, Meta>,        // absent means never managed
    elements: map<Canvas, Element>, // the canvas elements of the page
    watch: Watch,
    log: seq<Redraw>)

  /** The outcome of a step that may throw: the state reached, and whether an exception escaped. */
  datatype Run = Run(state: State, threw: bool)

  function MetaOf(meta: map<Canvas, Meta>, c: Canvas): Meta {
    if c in meta then meta[c] else Unset
  }

  /** All three properties are set, with a positive reference resolution. */
  predicate Filled(m: Meta) {
    && m.originalWidth.Some? && m.originalWidth.value > 0.0
    && m.originalHeight.Some? && m.originalHeight.value > 0.0
    && m.drawing.Some?
  }

  function Reference(m: Meta): Size
    requires Filled(m)
  {
    Size(m.originalWidth.value, m.originalHeight.value)
  }

  predicate Distinct(cs: seq<Canvas>) {
    forall i, j :: 0 <= i < j < |cs| ==> cs[i] != cs[j]
  }

  /** The host can lay out `c`: positive pixel ratio and positive client size. */
  predicate Ready(host: Host, c: Canvas) {
    host.dpr > 0.0 && c in host.client && Positive(host.client[c])
  }

  /**
   The state invariant: a canvas is either fully managed (registered once,
   observed, metadata set) or fully released (not registered, not observed,
   metadata unset), and exactly one media query carries the listener.
   */
  ghost predicate Wf(s: State) {
    && Distinct(s.canvases)
    && (forall c :: c in s.canvases <==> c in s.observed)
    && (forall c :: c in s.canvases ==> c in s.elements && Filled(MetaOf(s.meta, c)))
    && (forall c :: c !in s.canvases ==> MetaOf(s.meta, c) == Unset)
    && s.watch.listening == {s.watch.query}
    && s.watch.query.id < s.watch.next
  }

  /* ---------------------------------------------------------------------
     The density watcher
     --------------------------------------------------------------------- */

  /**
   `setupMediaQuery(old)`: detach the listener from the old query (if any),
   create a fresh query for the current ratio and attach the listener to it.
   */
  function SetupMediaQuery(listening: set<Query>, next: nat, previous: Option<Query>, dpr: real): (w: Watch)
    requires previous.Some? ==> previous.value.id < next
    ensures w.query.ratio == dpr
    ensures w.query.id == next && w.next > next
    ensures previous.Some? ==> previous.value !in w.listening
    ensures w.listening - {w.query} == listening - (if previous.Some? then {previous.value} else {}) - {w.query}
    ensures w.query in w.listening
  {
    var detached := if previous.Some? then listening - {previous.value} else listening;
    var q := Query(next, dpr);
    Watch(q, detached + {q}, next + 1)
  }

  /**
   Re-arming from a state with exactly one armed query leaves exactly one
   armed query, a new one, watching the new ratio.
   */
  lemma RearmKeepsOneWatcher(w: Watch, dpr: real)
    requires w.listening == {w.query} && w.query.id < w.next
    ensures var w' := SetupMediaQuery(w.listening, w.next, Some(w.query), dpr);
            && w'.listening == {w'.query}
            && w'.query != w.query
            && w'.query.ratio == dpr
            && w'.query.id < w'.next
  {
    var w' := SetupMediaQuery(w.listening, w.next, Some(w.query), dpr);
    assert w'.listening - {w'.query} == {};
  }

  /** The state at module load: nothing managed, one query armed at the current ratio. */
  function Init(elements: map<Canvas, Element>, dpr: real): (s: State)
    ensures Wf(s)
    ensures s.canvases == [] && s.observed == {} && s.log == []
    ensures s.elements == elements
    ensures s.watch.query.ratio == dpr
  {
    State([], {}, map[], elements, SetupMediaQuery({}, 0, None, dpr), [])
  }

  /* ---------------------------------------------------------------------
     Reshaping
     --------------------------------------------------------------------- */

  /** The backing resolution `reshape` assigns to `c`. */
  function DeviceBacking(host: Host, c: Canvas): Size
    requires Ready(host, c)
  {
    Fit.Backing(host.client[c], host.dpr)
  }

  /** The drawing-function call `reshape` makes for a canvas with metadata `m`. */
  function RedrawOf(m: Meta, host: Host, c: Canvas): Redraw
    requires Filled(m) && Ready(host, c)
  {
    Redraw(c, m.drawing.value, host.client[c], host.dpr, Reference(m))
  }

  /** The inputs of a redraw are ones the fit is defined on. */
  predicate Sane(r: Redraw) {
    Positive(r.client) && r.dpr > 0.0 && Positive(r.reference)
  }

  /** The placement the drawing function painted through. */
  function Placement(r: Redraw): Fit.Placement
    requires Sane(r)
  {
    Fit.Reshape(r.client, r.dpr, r.reference)
  }

  /** The redraws of reshaping each canvas of `cs` in turn. */
  function Redraws(meta: map<Canvas, Meta>, host: Host, cs: seq<Canvas>): (rs: seq<Redraw>)
    requires forall i :: 0 <= i < |cs| ==> Filled(MetaOf(meta, cs[i])) && Ready(host, cs[i])
    ensures |rs| == |cs|
    ensures forall i :: 0 <= i < |cs| ==> rs[i].canvas == cs[i]
  {
    seq(|cs|, i requires 0 <= i < |cs| => RedrawOf(MetaOf(meta, cs[i]), host, cs[i]))
  }

  /** The elements after the backing resolution of every canvas in `ts` is set from the host. */
  function Rescaled(elements: map<Canvas, Element>, host: Host, ts: seq<Canvas>): (es: map<Canvas, Element>)
    requires forall i :: 0 <= i < |ts| ==> Ready(host, ts[i])
    ensures es.Keys == elements.Keys
  {
    map c | c in elements ::
      if c in ts then elements[c].(backing := DeviceBacking(host, c)) else elements[c]
  }

  /**
   `reshape(canvas)`: assign the backing resolution, then fit and call the
   drawing function. The assignment happens first, so it survives the
   `TypeError` thrown when the drawing function is `undefined`.
   */
  function Reshape(s: State, host: Host, c: Canvas): (r: Run)
    requires Wf(s) && c in s.elements && Ready(host, c)
    ensures Wf(r.state)
    ensures r.threw <==> c !in s.canvases
    ensures r.state.elements == s.elements[c := s.elements[c].(backing := DeviceBacking(host, c))]
    ensures r.state.elements[c].backing == DeviceBacking(host, c)
    ensures r.state.log == if r.threw then s.log else s.log + [RedrawOf(MetaOf(s.meta, c), host, c)]
    ensures r.state.(elements := s.elements, log := s.log) == s
  {
    var s1 := s.(elements := s.elements[c := s.elements[c].(backing := DeviceBacking(host, c))]);
    var m := MetaOf(s.meta, c);
    if m.drawing.None? then
      Run(s1, true)
    else
      Run(s1.(log := s1.log + [RedrawOf(m, host, c)]), false)
  }

  /** The number of leading entries of `cs` that are managed. */
  function FirstUnmanaged(registry: seq<Canvas>, cs: seq<Canvas>): (k: nat)
    ensures k <= |cs|
    ensures forall i :: 0 <= i < k ==> cs[i] in registry
    ensures k < |cs| ==> cs[k] !in registry
  {
    if |cs| == 0 || cs[0] !in registry then 0
    else 1 + FirstUnmanaged(registry, cs[1..])
  }

  /** How many entries of `cs` a loop of reshapes reaches: all, or up to and including the one that throws. */
  function Reached(registry: seq<Canvas>, cs: seq<Canvas>): nat {
    var k := FirstUnmanaged(registry, cs);
    if k < |cs| then k + 1 else k
  }

  /**
   `for (c of cs) reshape(c)`: reshape each canvas in order, stopping at the
   first exception.
   */
  function ReshapeEach(s: State, host: Host, cs: seq<Canvas>): (r: Run)
    requires Wf(s)
    requires forall i :: 0 <= i < |cs| ==> cs[i] in s.elements && Ready(host, cs[i])
    ensures Wf(r.state)
    ensures r.threw <==> exists i :: 0 <= i < |cs| && cs[i] !in s.canvases
    ensures r.state.log == s.log + Redraws(s.meta, host, cs[..FirstUnmanaged(s.canvases, cs)])
    ensures r.state.elements == Rescaled(s.elements, host, cs[..Reached(s.canvases, cs)])
    ensures r.state.(elements := s.elements, log := s.log) == s
    decreases |cs|
  {
    if |cs| == 0 then
      assert s.elements == Rescaled(s.elements, host, cs[..0]);
      Run(s, false)
    else
      var r1 := Reshape(s, host, cs[0]);
      if r1.threw then
        assert cs[..Reached(s.canvases, cs)] == [cs[0]];
        r1
      else
        var r := ReshapeEach(r1.state, host, cs[1..]);
        LogStep(s.meta, s.canvases, host, cs, s.log, r.state.log);
        ElementsStep(s.elements, s.canvases, host, cs, r.state.elements);
        r
  }

  /** The log half of the inductive step of `ReshapeEach`. */
  lemma LogStep(meta: map<Canvas, Meta>, registry: seq<Canvas>, host: Host, cs: seq<Canvas>, log0: seq<Redraw>, log: seq<Redraw>)
    requires |cs| > 0 && cs[0] in registry
    requires forall i :: 0 <= i < |cs| ==> Ready(host, cs[i])
    requires forall c :: c in registry ==> Filled(MetaOf(meta, c))
    requires log == log0 + [RedrawOf(MetaOf(meta, cs[0]), host, cs[0])]
                    + Redraws(meta, host, cs[1..][..FirstUnmanaged(registry, cs[1..])])
    ensures log == log0 + Redraws(meta, host, cs[..FirstUnmanaged(registry, cs)])
  {
    var k' := FirstUnmanaged(registry, cs[1..]);
    assert FirstUnmanaged(registry, cs) == k' + 1;
    var first := [RedrawOf(MetaOf(meta, cs[0]), host, cs[0])];
    var rest := Redraws(meta, host, cs[1..][..k']);
    RedrawsPrefixCons(meta, registry, host, cs, k');
    assert log0 + first + rest == log0 + (first + rest);
  }

  /** Redrawing a managed prefix of length k + 1 is redrawing its head, then the next k. */
  lemma RedrawsPrefixCons(meta: map<Canvas, Meta>, registry: seq<Canvas>, host: Host, cs: seq<Canvas>, k: nat)
    requires k < |cs| && cs[0] in registry
    requires forall i :: 0 <= i < k ==> cs[1..][i] in registry
    requires forall i :: 0 <= i < |cs| ==> Ready(host, cs[i])
    requires forall c :: c in registry ==> Filled(MetaOf(meta, c))
    ensures forall i :: 0 <= i < k + 1 ==> cs[i] in registry
    ensures Redraws(meta, host, cs[..k + 1])
         == [RedrawOf(MetaOf(meta, cs[0]), host, cs[0])] + Redraws(meta, host, cs[1..][..k])
  {
    forall i | 0 <= i < k + 1 ensures cs[i] in registry {
      if i > 0 {
        assert cs[i] == cs[1..][i - 1];
      }
    }
    var rs := Redraws(meta, host, cs[..k + 1]);
    var rs' := [RedrawOf(MetaOf(meta, cs[0]), host, cs[0])] + Redraws(meta, host, cs[1..][..k]);
    assert |rs| == |rs'|;
    forall i | 0 <= i < |rs| ensures rs[i] == rs'[i] {
      if i > 0 {
        assert rs'[i] == Redraws(meta, host, cs[1..][..k])[i - 1];
        assert cs[1..][..k][i - 1] == cs[..k + 1][i];
      }
    }
  }

  /** The element half of the inductive step of `ReshapeEach`. */
  lemma ElementsStep(elements: map<Canvas, Element>, registry: seq<Canvas>, host: Host, cs: seq<Canvas>, es: map<Canvas, Element>)
    requires |cs| > 0 && cs[0] in registry && cs[0] in elements
    requires forall i :: 0 <= i < |cs| ==> Ready(host, cs[i])
    requires es == Rescaled(elements[cs[0] := elements[cs[0]].(backing := DeviceBacking(host, cs[0]))],
                            host, cs[1..][..Reached(registry, cs[1..])])
    ensures es == Rescaled(elements, host, cs[..Reached(registry, cs)])
  {
    var n' := Reached(registry, cs[1..]);
    assert Reached(registry, cs) == n' + 1;
    assert cs[..n' + 1] == [cs[0]] + cs[1..][..n'];
    RescaledCons(elements, host, cs[0], cs[1..][..n']);
  }

  lemma RescaledCons(elements: map<Canvas, Element>, host: Host, c0: Canvas, ts: seq<Canvas>)
    requires c0 in elements && Ready(host, c0)
    requires forall i :: 0 <= i < |ts| ==> Ready(host, ts[i])
    ensures Rescaled(elements[c0 := elements[c0].(backing := DeviceBacking(host, c0))], host, ts)
         == Rescaled(elements, host, [c0] + ts)
  {
    var e1 := elements[c0 := elements[c0].(backing := DeviceBacking(host, c0))];
    var lhs := Rescaled(e1, host, ts);
    var rhs := Rescaled(elements, host, [c0] + ts);
    forall c | c in elements ensures lhs[c] == rhs[c] {
      assert c in [c0] + ts <==> c == c0 || c in ts;
    }
    assert lhs.Keys == rhs.Keys;
  }

  /* ---------------------------------------------------------------------
     The operations
     --------------------------------------------------------------------- */

  /**
   `setSize`, reduced to its decision rule: if the probe rule decided the
   measured client width, the canvas has no explicit size, and its style
   size becomes its backing resolution taken as CSS pixels.
   */
  function SetSize(e: Element, measuredWidth: real): (r: Element)
    ensures r.backing == e.backing
    ensures measuredWidth == SentinelSize ==> r.style == Some(e.backing)
    ensures measuredWidth != SentinelSize ==> r == e
  {
    if measuredWidth == SentinelSize then e.(style := Some(e.backing)) else e
  }

  /** The metadata `manageCanvas` attaches: the current resolution as reference, and the drawing function. */
  function Managed(e: Element, draw: Drawing): Meta {
    Meta(Some(e.backing.width), Some(e.backing.height), Some(draw))
  }

  /**
   `manageCanvas(canvas, draw)`. The metadata is always refreshed. A
   canvas already managed returns right after; a new one is registered,
   given a default size if it has none, observed, and reshaped once.
   `probe` is the client width measured while the probe rule applies.
   */
  function ManageCanvas(s: State, host: Host, c: Canvas, draw: Drawing, probe: real): (r: State)
    requires Wf(s)
    requires c in s.elements && Positive(s.elements[c].backing)
    requires c !in s.canvases ==> Ready(host, c)
    ensures Wf(r)
    ensures c in r.canvases && c in r.observed
    ensures MetaOf(r.meta, c) == Managed(s.elements[c], draw)
    ensures c in s.canvases ==> r == s.(meta := s.meta[c := Managed(s.elements[c], draw)])
    ensures c !in s.canvases ==>
              && r.canvases == s.canvases + [c]
              && r.observed == s.observed + {c}
              && r.log == s.log + [RedrawOf(Managed(s.elements[c], draw), host, c)]
              && r.elements == s.elements[c := SetSize(s.elements[c], probe).(backing := DeviceBacking(host, c))]
              && r.watch == s.watch
              && r.meta == s.meta[c := Managed(s.elements[c], draw)]
  {
    var m := Managed(s.elements[c], draw);
    var s1 := s.(meta := s.meta[c := m]);
    if c in s.canvases then
      s1
    else
      var s2 := s1.(canvases := s1.canvases + [c]);
      var s3 := s2.(elements := s2.elements[c := SetSize(s2.elements[c], probe)]);
      var s4 := s3.(observed := s3.observed + {c});
      assert Wf(s4);
      Reshape(s4, host, c).state
  }

  /** `canvases` with `c` removed (the registry's `delete`). */
  function Without(cs: seq<Canvas>, c: Canvas): (r: seq<Canvas>)
    ensures forall x :: x in r <==> x in cs && x != c
    ensures Distinct(cs) ==> Distinct(r)
    ensures c !in cs ==> r == cs
  {
    if |cs| == 0 then []
    else if cs[0] == c then Without(cs[1..], c)
    else
      var rest := Without(cs[1..], c);
      assert Distinct(cs) ==> cs[0] !in cs[1..];
      [cs[0]] + rest
  }

  /**
   Removal keeps the order of the rest: in a duplicate-free registry,
   removing the canvas at position i leaves the canvases before it
   followed by those after it.
   */
  lemma {:induction false} WithoutKeepsOrder(cs: seq<Canvas>, c: Canvas, i: nat)
    requires Distinct(cs) && i < |cs| && cs[i] == c
    ensures Without(cs, c) == cs[..i] + cs[i + 1..]
  {
    var tail := cs[1..];
    assert cs == [cs[0]] + tail;
    assert Distinct(tail) by {
      forall j, k | 0 <= j < k < |tail| ensures tail[j] != tail[k] {
        assert tail[j] == cs[j + 1] && tail[k] == cs[k + 1];
      }
    }
    if i == 0 {
      assert c !in tail by {
        forall j | 0 <= j < |tail| ensures tail[j] != c {
          assert tail[j] == cs[j + 1];
        }
      }
      assert Without(cs, c) == Without(tail, c) == tail;
      assert cs[..0] + cs[1..] == tail;
    } else {
      assert cs[0] != c && tail[i - 1] == c;
      assert Without(cs, c) == [cs[0]] + Without(tail, c);
      WithoutKeepsOrder(tail, c, i - 1);
      assert cs[..i] == [cs[0]] + tail[..i - 1];
      assert cs[i + 1..] == tail[i..];
    }
  }

  /**
   `releaseCanvas(canvas)`: remove from the registry and the observer, and
   set the three properties to `undefined`.
   */
  function ReleaseCanvas(s: State, c: Canvas): (r: State)
    ensures c !in r.canvases && c !in r.observed && MetaOf(r.meta, c) == Unset
    ensures forall x :: x in r.canvases <==> x in s.canvases && x != c
    ensures r.observed == s.observed - {c}
    ensures forall x :: x != c ==> MetaOf(r.meta, x) == MetaOf(s.meta, x)
    ensures c !in s.canvases ==> r.canvases == s.canvases
    ensures forall i :: 0 <= i < |s.canvases| && s.canvases[i] == c && Distinct(s.canvases) ==>
              r.canvases == s.canvases[..i] + s.canvases[i + 1..]
    ensures r.elements == s.elements && r.watch == s.watch && r.log == s.log
    ensures Wf(s) ==> Wf(r)
  {
    assert forall i :: 0 <= i < |s.canvases| && s.canvases[i] == c && Distinct(s.canvases) ==>
             Without(s.canvases, c) == s.canvases[..i] + s.canvases[i + 1..] by {
      forall i | 0 <= i < |s.canvases| && s.canvases[i] == c && Distinct(s.canvases)
        ensures Without(s.canvases, c) == s.canvases[..i] + s.canvases[i + 1..] {
        WithoutKeepsOrder(s.canvases, c, i);
      }
    }
    s.(canvases := Without(s.canvases, c), observed := s.observed - {c}, meta := s.meta[c := Unset])
  }

  /**
   `sizeChange(entries)`: reshape the target of every entry, in order,
   whether or not it is still managed. An entry for a canvas that is not
   managed throws, and the entries after it are not reshaped.
   */
  function SizeChange(s: State, host: Host, entries: seq<Canvas>): (r: Run)
    requires Wf(s)
    requires forall i :: 0 <= i < |entries| ==> entries[i] in s.elements && Ready(host, entries[i])
    ensures Wf(r.state)
    ensures r.threw <==> exists i :: 0 <= i < |entries| && entries[i] !in s.canvases
    ensures r.state.log == s.log + Redraws(s.meta, host, entries[..FirstUnmanaged(s.canvases, entries)])
    ensures !r.threw ==> r.state.log == s.log + Redraws(s.meta, host, entries)
    ensures r.state.elements == Rescaled(s.elements, host, entries[..Reached(s.canvases, entries)])
    ensures r.state.(elements := s.elements, log := s.log) == s
  {
    var r := ReshapeEach(s, host, entries);
    assert !r.threw ==> entries[..FirstUnmanaged(s.canvases, entries)] == entries;
    r
  }

  /**
   `deviceChange()`: reshape every managed canvas, then re-arm the media
   query at the current ratio.
   */
  function DeviceChange(s: State, host: Host): (r: State)
    requires Wf(s)
    requires host.dpr > 0.0
    requires forall c :: c in s.canvases ==> Ready(host, c)
    ensures Wf(r)
    ensures r.log == s.log + Redraws(s.meta, host, s.canvases)
    ensures r.elements.Keys == s.elements.Keys
    ensures forall c :: c in s.canvases ==> r.elements[c] == s.elements[c].(backing := DeviceBacking(host, c))
    ensures forall c :: c in s.elements && c !in s.canvases ==> r.elements[c] == s.elements[c]
    ensures r.canvases == s.canvases && r.observed == s.observed && r.meta == s.meta
    ensures r.watch.listening == {r.watch.query}
    ensures r.watch.query.ratio == host.dpr && r.watch.query != s.watch.query
  {
    var run := ReshapeEach(s, host, s.canvases);
    assert FirstUnmanaged(s.canvases, s.canvases) == |s.canvases|;
    assert s.canvases[..|s.canvases|] == s.canvases;
    var s1 := run.state;
    RearmKeepsOneWatcher(s1.watch, host.dpr);
    s1.(watch := SetupMediaQuery(s1.watch.listening, s1.watch.next, Some(s1.watch.query), host.dpr))
  }
}
