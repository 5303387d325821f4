/** The registry of guest surfaces as the list its functions walk and change. */
module SurfaceStore {
  import opened Options
  import opened GuestSurfaces

  /** The walk that stops at `i` stops at the first entry that fits. */
  lemma FirstIs(list: seq<Entry>, display: nat, surface: nat, want: Want, i: nat)
    requires i <= |list| && (i < |list| ==> Fits(list[i], display, surface, want))
    requires forall j | 0 <= j < i :: !Fits(list[j], display, surface, want)
    ensures First(list, display, surface, want) == i
  {
  }

  /** egl_guest_surfaces with its count; a list cell is an element of the sequence. */
  class Surfaces {
    var list: seq<Entry>
    var pending: int

    function View(): Registry
      reads this
    {
      Registry(list, pending)
    }

    constructor ()
      ensures View() == Registry([], 0)
    {
      list, pending := [], 0;
    }

    method Take(display: nat, surface: nat) returns (found: Option<Entry>)
      modifies this
      ensures (View(), found) == GuestSurfaces.Take(old(View()), display, surface)
    {
      for i := 0 to |list|
        invariant list == old(list) && pending == old(pending)
        invariant forall j | 0 <= j < i :: !Fits(list[j], display, surface, Any)
      {
        var e := list[i];
        if e.display == display && e.surface == surface {
          FirstIs(list, display, surface, Any, i);
          list := list[..i] + list[i + 1..];
          if e.handoff.Pending? {
            pending := pending - 1;
          }
          return Some(e);
        }
      }
      FirstIs(list, display, surface, Any, |list|);
      found := None;
    }

    method DiscardWindow(w: Window)
      modifies this
      ensures View() == Discard(old(View()), w)
    {
      ghost var was := list;
      var kept: seq<Entry> := [];
      for i := 0 to |list|
        invariant list == was && kept + Elsewhere(was[i..], w) == Elsewhere(was, w)
        invariant pending - Dropped(was[i..], w) == old(pending) - Dropped(was, w)
      {
        var e := list[i];
        assert was[i..][0] == e && was[i..][1..] == was[i + 1..];
        if e.window != w {
          assert kept + [e] + Elsewhere(was[i + 1..], w) == kept + ([e] + Elsewhere(was[i + 1..], w));
          kept := kept + [e];
        } else if e.handoff.Pending? {
          pending := pending - 1;
        }
      }
      assert was[|was|..] == [] && kept + [] == kept;
      list := kept;
    }

    method Store(e: Entry)
      modifies this
      ensures View() == GuestSurfaces.Store(old(View()), e)
    {
      DiscardWindow(e.window);
      list := [e] + list;
      if e.handoff.Pending? {
        pending := pending + 1;
      }
    }

    method Claim(display: nat, surface: nat) returns (found: Option<Entry>)
      modifies this
      ensures (View(), found) == GuestSurfaces.Claim(old(View()), display, surface)
    {
      for i := 0 to |list|
        invariant list == old(list) && pending == old(pending)
        invariant forall j | 0 <= j < i :: !Fits(list[j], display, surface, ToClaim)
      {
        var e := list[i];
        if e.display == display && e.surface == surface && e.handoff.Pending? {
          FirstIs(list, display, surface, ToClaim, i);
          e := e.(handoff := Inflight);
          list := list[i := e];
          pending := pending - 1;
          return Some(e);
        }
      }
      FirstIs(list, display, surface, ToClaim, |list|);
      found := None;
    }

    method Finish(display: nat, surface: nat, g: Generation, accepted: bool)
      modifies this
      ensures View() == GuestSurfaces.Finish(old(View()), display, surface, g, accepted)
    {
      for i := 0 to |list|
        invariant list == old(list) && pending == old(pending)
        invariant forall j | 0 <= j < i :: !Fits(list[j], display, surface, ToFinish(g))
      {
        var e := list[i];
        if e.display != display || e.surface != surface || e.generation != g || !e.handoff.Inflight? {
          continue;
        }
        FirstIs(list, display, surface, ToFinish(g), i);
        if accepted {
          list := list[i := e.(handoff := Complete)];
        } else {
          list := list[i := e.(handoff := Pending)];
          pending := pending + 1;
        }
        return;
      }
      FirstIs(list, display, surface, ToFinish(g), |list|);
    }

    method ClearAll()
      modifies this
      ensures View() == Registry([], 0)
    {
      list, pending := [], 0;
    }
  }
}
