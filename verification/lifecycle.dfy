/**
 Properties relating several operations of the canvas manager: repeat and
 reverse management, idempotent release, and what density and size
 changes redraw.
 */
module Lifecycle {
  import opened Wrappers
  import opened Geometry
  import Fit
  import opened Canvases

  /** The canvases a sequence of redraws painted, in order. */
  function Targets(rs: seq<Redraw>): (cs: seq<Canvas>)
    ensures |cs| == |rs|
    ensures forall i :: 0 <= i < |rs| ==> cs[i] == rs[i].canvas
  {
    seq(|rs|, i requires 0 <= i < |rs| => rs[i].canvas)
  }

  /** In a duplicate-free sequence every member occurs exactly once. */
  lemma {:induction false} DistinctOccursOnce(cs: seq<Canvas>, c: Canvas)
    requires Distinct(cs)
    ensures multiset(cs)[c] == if c in cs then 1 else 0
  {
    if |cs| > 0 {
      assert cs == [cs[0]] + cs[1..];
      assert Distinct(cs[1..]) by {
        forall i, j | 0 <= i < j < |cs[1..]| ensures cs[1..][i] != cs[1..][j] {
          assert cs[1..][i] == cs[i + 1] && cs[1..][j] == cs[j + 1];
        }
      }
      assert cs[0] !in cs[1..] by {
        forall i | 0 <= i < |cs[1..]| ensures cs[1..][i] != cs[0] {
          assert cs[1..][i] == cs[i + 1];
        }
      }
      DistinctOccursOnce(cs[1..], c);
      assert multiset(cs) == multiset{cs[0]} + multiset(cs[1..]);
    }
  }

  /** Appending a canvas not yet present and removing it again gives back the original sequence. */
  lemma {:induction false} WithoutAppended(cs: seq<Canvas>, c: Canvas)
    requires c !in cs
    ensures Without(cs + [c], c) == cs
  {
    if |cs| > 0 {
      assert (cs + [c])[1..] == cs[1..] + [c];
      WithoutAppended(cs[1..], c);
    } else {
      assert [c][1..] == [];
    }
  }

  /**
   A first `manageCanvas` registers, observes and reshapes once; a second
   one on the same canvas adds nothing to the registry, the observer or the
   log, and only refreshes the metadata.
   */
  lemma ManageTwiceRegistersOnce(s: State, host: Host, c: Canvas, d1: Drawing, p1: real, host2: Host, d2: Drawing, p2: real)
    requires Wf(s) && c !in s.canvases
    requires c in s.elements && Positive(s.elements[c].backing) && Ready(host, c)
    ensures var s1 := ManageCanvas(s, host, c, d1, p1);
            var s2 := ManageCanvas(s1, host2, c, d2, p2);
            && s2.canvases == s.canvases + [c]
            && s2.observed == s.observed + {c}
            && |s2.log| == |s.log| + 1
            && s2.log[|s.log|].canvas == c
            && s2.elements == s1.elements
            && MetaOf(s2.meta, c).drawing == Some(d2)
            && MetaOf(s2.meta, c) == Managed(s1.elements[c], d2)
  {
    var s1 := ManageCanvas(s, host, c, d1, p1);
    assert Positive(s1.elements[c].backing) by {
      var b := host.client[c];
      assert s1.elements[c].backing == Size(b.width * host.dpr, b.height * host.dpr);
      Fit.ScaleMonotone(host.dpr, 0.0, b.width);
      Fit.ScaleMonotone(host.dpr, 0.0, b.height);
    }
  }

  /**
   A repeat `manageCanvas` after the initial reshape takes the reference
   resolution from the canvas's current `width`/`height`, which are by then
   the device-pixel backing resolution, not the resolution first given.
   */
  lemma RepeatManageAdoptsBacking(s: State, host: Host, c: Canvas, d1: Drawing, p1: real, host2: Host, d2: Drawing, p2: real)
    requires Wf(s) && c !in s.canvases
    requires c in s.elements && Positive(s.elements[c].backing) && Ready(host, c)
    ensures var s1 := ManageCanvas(s, host, c, d1, p1);
            var s2 := ManageCanvas(s1, host2, c, d2, p2);
            && MetaOf(s2.meta, c).originalWidth == Some(host.client[c].width * host.dpr)
            && MetaOf(s2.meta, c).originalHeight == Some(host.client[c].height * host.dpr)
  {
    ManageTwiceRegistersOnce(s, host, c, d1, p1, host2, d2, p2);
    var s1 := ManageCanvas(s, host, c, d1, p1);
    var b := s1.elements[c].backing;
    assert b == Size(host.client[c].width * host.dpr, host.client[c].height * host.dpr);
    var s2 := ManageCanvas(s1, host2, c, d2, p2);
    assert MetaOf(s2.meta, c) == Meta(Some(b.width), Some(b.height), Some(d2));
  }

  /** Releasing twice is releasing once. */
  lemma ReleaseIdempotent(s: State, c: Canvas)
    ensures ReleaseCanvas(ReleaseCanvas(s, c), c) == ReleaseCanvas(s, c)
  {
    var r := ReleaseCanvas(s, c);
    assert r.meta[c := Unset] == r.meta;
  }

  /** On a canvas that is not managed, release changes nothing but the metadata, which it clears. */
  lemma ReleaseUnmanagedOnlyClears(s: State, c: Canvas)
    requires Wf(s) && c !in s.canvases
    ensures ReleaseCanvas(s, c) == s.(meta := s.meta[c := Unset])
  {
  }

  /**
   Release undoes a first management: the registry and observer return to
   what they were, and the canvas's metadata to unset.
   */
  lemma ReleaseUndoesManage(s: State, host: Host, c: Canvas, draw: Drawing, probe: real)
    requires Wf(s) && c !in s.canvases
    requires c in s.elements && Positive(s.elements[c].backing) && Ready(host, c)
    ensures var r := ReleaseCanvas(ManageCanvas(s, host, c, draw, probe), c);
            && r.canvases == s.canvases
            && r.observed == s.observed
            && forall x :: MetaOf(r.meta, x) == MetaOf(s.meta, x)
  {
    WithoutAppended(s.canvases, c);
    assert c !in s.observed;
  }

  /**
   When the host reports only observed canvases, as a resize observer
   does, a size change never throws and redraws every entry, in order.
   */
  lemma SizeChangeOnObservedRedrawsAll(s: State, host: Host, entries: seq<Canvas>)
    requires Wf(s)
    requires forall i :: 0 <= i < |entries| ==> entries[i] in s.observed && Ready(host, entries[i])
    ensures var r := SizeChange(s, host, entries);
            && !r.threw
            && Targets(r.state.log[|s.log|..]) == entries
  {
    var r := SizeChange(s, host, entries);
    assert Targets(r.state.log[|s.log|..]) == entries;
  }

  /**
   A density change redraws the registry in its order, keeps it, and
   leaves exactly one query armed, at the new ratio.
   */
  lemma DeviceChangeRedrawsRegistry(s: State, host: Host)
    requires Wf(s) && host.dpr > 0.0
    requires forall x :: x in s.canvases ==> Ready(host, x)
    ensures var r := DeviceChange(s, host);
            && Wf(r)
            && r.canvases == s.canvases
            && Targets(r.log[|s.log|..]) == s.canvases
            && r.watch.listening == {r.watch.query}
            && r.watch.query.ratio == host.dpr
  {
    var r := DeviceChange(s, host);
    assert Targets(r.log[|s.log|..]) == s.canvases;
  }

  /**
   A density change redraws every managed canvas exactly once, and no
   other canvas.
   */
  lemma DeviceChangeRedrawsEachOnce(s: State, host: Host, c: Canvas)
    requires Wf(s) && host.dpr > 0.0
    requires forall x :: x in s.canvases ==> Ready(host, x)
    ensures var r := DeviceChange(s, host);
            multiset(Targets(r.log[|s.log|..]))[c] == if c in s.canvases then 1 else 0
  {
    DeviceChangeRedrawsRegistry(s, host);
    DistinctOccursOnce(s.canvases, c);
  }

  /**
   After a density change every managed canvas has a backing resolution
   equal to its client size times the new ratio, and was painted through
   the best fit of its reference resolution at that ratio.
   */
  lemma DeviceChangeTracksDensity(s: State, host: Host, i: nat)
    requires Wf(s) && host.dpr > 0.0
    requires forall x :: x in s.canvases ==> Ready(host, x)
    requires i < |s.canvases|
    ensures var r := DeviceChange(s, host);
            var c := s.canvases[i];
            var redraw := r.log[|s.log| + i];
            && redraw.canvas == c
            && Sane(redraw)
            && Fit.BestFit(Placement(redraw), host.client[c], host.dpr, Reference(MetaOf(s.meta, c)))
            && Placement(redraw).backing == r.elements[c].backing
  {
    var r := DeviceChange(s, host);
    var c := s.canvases[i];
    var redraw := r.log[|s.log| + i];
    assert redraw == RedrawOf(MetaOf(s.meta, c), host, c);
    Fit.ReshapeIsBestFit(host.client[c], host.dpr, Reference(MetaOf(s.meta, c)));
  }

  /**
   A released canvas is not redrawn again: neither by a size change, even
   one whose entries still name it, nor by a density change.
   */
  lemma ReleasedIsNotRedrawn(s: State, c: Canvas, host: Host, entries: seq<Canvas>)
    requires Wf(s)
    requires forall i :: 0 <= i < |entries| ==> entries[i] in s.elements && Ready(host, entries[i])
    requires host.dpr > 0.0 && forall x :: x in s.canvases ==> Ready(host, x)
    ensures var s1 := ReleaseCanvas(s, c);
            && c !in Targets(SizeChange(s1, host, entries).state.log[|s1.log|..])
            && c !in Targets(DeviceChange(s1, host).log[|s1.log|..])
  {
    var s1 := ReleaseCanvas(s, c);
    var r := SizeChange(s1, host, entries);
    var k := FirstUnmanaged(s1.canvases, entries);
    assert r.state.log[|s1.log|..] == Redraws(s1.meta, host, entries[..k]);
    var t := Targets(r.state.log[|s1.log|..]);
    forall i | 0 <= i < |t| ensures t[i] != c {
      assert t[i] == entries[i] && entries[i] in s1.canvases;
    }
    DeviceChangeRedrawsRegistry(s1, host);
  }
}
