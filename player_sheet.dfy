/** The expand/collapse state machine of the mini-player sheet. Its state is
    split across two views: the shell (Home.swift) owns `expandedSheet`, and
    the expanded sheet (ExpandedBottomSheet.swift), while it is inserted,
    owns `animateContent` and `offsetY`, which start at false and 0 every
    time it is inserted. Each animated block is one atomic update. */
module PlayerSheet {
  import ExpandedSheet
  import Home

  /** The whole state: the shell's flag, whether the expanded sheet is
      inserted, and the sheet's own two fields (stale while it is not). */
  datatype SheetState = SheetState(expandSheet: bool, present: bool, animateContent: bool, offsetY: real)

  /** The invariant of every reachable state: the sheet is inserted exactly
      while the flag says so, and it is never dragged above its rest position.
      So exactly one of the two view trees, the mini bar's or the sheet's, is
      on screen. */
  predicate Inv(s: SheetState): (ok: bool)
    ensures ok ==> (s.present <==> Home.Rendered(Home.SheetPanel, s.expandSheet))
    ensures ok ==> (s.present <==> !Home.Rendered(Home.MiniBarInfo, s.expandSheet))
    ensures ok ==> s.offsetY >= 0.0
  {
    s.present == Home.SheetPresented(s.expandSheet) && s.offsetY >= 0.0
  }

  /** The state at launch: collapsed, no sheet inserted, nothing dragged. */
  function Initial(): (s: SheetState)
    ensures Inv(s) && !s.expandSheet && !s.present
    ensures !s.animateContent && s.offsetY == 0.0
  {
    SheetState(false, false, false, 0.0)
  }

  // ---------------------------------------------------------------------------
  // Specification of each event handler, as a function of the state
  // ---------------------------------------------------------------------------

  /** The overlay re-rendered after the flag is set to `expand`: inserting the
      sheet gives it fresh fields, removing it leaves them stale. */
  function Rerender(s: SheetState, expand: bool): (r: SheetState)
    ensures r.expandSheet == expand && r.present == Home.SheetPresented(expand)
    ensures r.present && !s.present ==> !r.animateContent && r.offsetY == 0.0
    ensures !(r.present && !s.present) ==> r.animateContent == s.animateContent && r.offsetY == s.offsetY
  {
    var present := Home.SheetPresented(expand);
    if present && !s.present then SheetState(expand, true, false, 0.0)
    else s.(expandSheet := expand, present := present)
  }

  /** The mini bar's tap handler: the flag becomes true. */
  function Tapped(s: SheetState): (r: SheetState)
    ensures r.expandSheet && r.present
    ensures !s.present ==> !r.animateContent && r.offsetY == 0.0
    ensures s.present ==> r.animateContent == s.animateContent && r.offsetY == s.offsetY
  {
    Rerender(s, true)
  }

  /** The sheet's appearance handler: the content animates in. */
  function Appeared(s: SheetState): (r: SheetState)
    ensures r.animateContent
    ensures r.expandSheet == s.expandSheet && r.present == s.present && r.offsetY == s.offsetY
  {
    s.(animateContent := true)
  }

  /** The drag-changed handler: the sheet follows the clamped translation. */
  function Dragged(s: SheetState, translationY: real): (r: SheetState)
    ensures r.offsetY >= 0.0 && r.offsetY >= translationY
    ensures r.offsetY == translationY || r.offsetY == 0.0
    ensures r.expandSheet == s.expandSheet && r.present == s.present && r.animateContent == s.animateContent
  {
    s.(offsetY := ExpandedSheet.ClampedOffset(translationY))
  }

  /** The drag-ended handler, in a container `height` tall: past the threshold
      the flag and the content are switched off (which removes the sheet),
      otherwise the sheet snaps back to rest. */
  function Released(s: SheetState, height: real): (r: SheetState)
    ensures ExpandedSheet.CommitsDismissal(s.offsetY, height) ==>
              !r.expandSheet && !r.present && !r.animateContent && r.offsetY == s.offsetY
    ensures !ExpandedSheet.CommitsDismissal(s.offsetY, height) ==>
              r.expandSheet == s.expandSheet && r.present == s.present &&
              r.animateContent == s.animateContent && r.offsetY == 0.0
  {
    if ExpandedSheet.CommitsDismissal(s.offsetY, height) then Rerender(s.(animateContent := false), false)
    else s.(offsetY := 0.0)
  }

  // ---------------------------------------------------------------------------
  // Properties of single handlers
  // ---------------------------------------------------------------------------

  /** Every handler keeps the invariant (the sheet's own handlers run only while it is inserted). */
  lemma HandlersPreserveInv(s: SheetState, translationY: real, height: real)
    requires Inv(s)
    ensures Inv(Tapped(s))
    ensures s.present ==> Inv(Appeared(s)) && Inv(Dragged(s, translationY)) && Inv(Released(s, height))
  {
  }

  /** A second tap changes nothing. */
  lemma TapIsIdempotent(s: SheetState)
    ensures Tapped(Tapped(s)) == Tapped(s)
  {
  }

  /** A freshly inserted sheet starts with its content hidden and at rest,
      and its appearance handler then reveals the content. */
  lemma InsertionStartsFresh(s: SheetState)
    requires Inv(s) && !s.expandSheet
    ensures Tapped(s).present && !Tapped(s).animateContent && Tapped(s).offsetY == 0.0
    ensures Appeared(Tapped(s)).animateContent && Appeared(Tapped(s)).offsetY == 0.0
  {
  }

  /** The release rule at and around the threshold: a release exactly at 40%
      of the height snaps back and keeps the sheet expanded, one beyond it
      removes the sheet. */
  lemma ReleaseAtThreshold(s: SheetState, height: real, eps: real)
    requires Inv(s) && s.present && eps > 0.0
    ensures Released(s.(offsetY := height * ExpandedSheet.DismissFraction), height).present
    ensures Released(s.(offsetY := height * ExpandedSheet.DismissFraction), height).offsetY == 0.0
    ensures !Released(s.(offsetY := height * ExpandedSheet.DismissFraction + eps), height).present
  {
    ExpandedSheet.ThresholdIsStrict(height, eps);
  }

  // ---------------------------------------------------------------------------
  // Event traces
  // ---------------------------------------------------------------------------

  /** The input events the two views react to. */
  datatype Event = TapMiniBar | Appear | DragChanged(translationY: real) | DragEnded(height: real)

  /** Whether an event reaches a handler: the tap only through a rendered,
      hit-testable mini-bar `MusicInfo`, the others only while the sheet is inserted. */
  function Delivered(s: SheetState, e: Event): (delivered: bool)
    ensures e.TapMiniBar? && delivered ==> !s.expandSheet
  {
    match e
    case TapMiniBar => Home.ReceivesTap(Home.MiniBarInfo, s.expandSheet)
    case _ => s.present
  }

  /** The state after one event; an event that reaches no handler is dropped. */
  function Step(s: SheetState, e: Event): (r: SheetState)
    ensures Inv(s) ==> Inv(r)
    ensures !Delivered(s, e) ==> r == s
  {
    if !Delivered(s, e) then s
    else match e
      case TapMiniBar => Tapped(s)
      case Appear => Appeared(s)
      case DragChanged(t) => Dragged(s, t)
      case DragEnded(h) => Released(s, h)
  }

  /** The state after a sequence of events; every run keeps the invariant. */
  function Run(s: SheetState, events: seq<Event>): (r: SheetState)
    ensures Inv(s) ==> Inv(r)
    decreases |events|
  {
    if events == [] then s else Run(Step(s, events[0]), events[1..])
  }

  /** Running a trace is running its first event, then the rest. */
  lemma RunFirst(s: SheetState, e: Event, rest: seq<Event>)
    ensures Run(s, [e] + rest) == Run(Step(s, e), rest)
  {
    assert ([e] + rest)[1..] == rest;
  }

  /** The drag-changed events for a sequence of translations. */
  function Drags(translations: seq<real>): (events: seq<Event>)
    ensures |events| == |translations|
    ensures forall i :: 0 <= i < |events| ==> events[i] == DragChanged(translations[i])
  {
    if translations == [] then [] else [DragChanged(translations[0])] + Drags(translations[1..])
  }

  /** Every reachable state keeps the invariant, shows or hides the tab bar
      and the sheet together, and has exactly one owner for each anchor. */
  lemma ReachableStatesAreConsistent(events: seq<Event>, anchor: Home.AnchorId)
    ensures Inv(Run(Initial(), events))
    ensures var s := Run(Initial(), events);
      (Home.TabBarVisibility(Home.ListenNow, s.expandSheet) == Home.Hidden <==> s.present) &&
      Home.Owners(anchor, s.expandSheet) == {Home.IntendedOwner(anchor, s.expandSheet)}
  {
    var s := Run(Initial(), events);
    Home.TabBarHiddenIffPresented(Home.ListenNow, s.expandSheet);
    Home.AnchorsHaveExactlyOneOwner(anchor, s.expandSheet);
  }

  /** Running two traces in turn is running their concatenation. */
  lemma {:induction false} RunAppend(s: SheetState, first: seq<Event>, second: seq<Event>)
    ensures Run(s, first + second) == Run(Run(s, first), second)
    decreases |first|
  {
    if first != [] {
      assert (first + second)[0] == first[0];
      assert (first + second)[1..] == first[1..] + second;
      RunAppend(Step(s, first[0]), first[1..], second);
    } else {
      assert first + second == second;
    }
  }

  /** During a drag the sheet's offset is the clamp of the latest translation,
      and nothing else changes. */
  lemma {:induction false} DragFollowsLatestTranslation(s: SheetState, translations: seq<real>)
    requires s.present && translations != []
    ensures Run(s, Drags(translations)) == Dragged(s, translations[|translations| - 1])
    decreases |translations|
  {
    var next := Step(s, DragChanged(translations[0]));
    assert next == Dragged(s, translations[0]);
    assert Drags(translations) == [DragChanged(translations[0])] + Drags(translations[1..]);
    RunFirst(s, DragChanged(translations[0]), Drags(translations[1..]));
    if |translations| > 1 {
      DragFollowsLatestTranslation(next, translations[1..]);
    }
  }

  /** An upward-only drag leaves a sheet at rest untouched, and releasing it
      in a container of non-negative height never dismisses. */
  lemma UpwardDragNeverDismisses(s: SheetState, translations: seq<real>, height: real)
    requires Inv(s) && s.present && s.offsetY == 0.0 && height >= 0.0
    requires forall i :: 0 <= i < |translations| ==> translations[i] <= 0.0
    ensures Run(s, Drags(translations)) == s
    ensures Run(s, Drags(translations) + [DragEnded(height)]) == s
  {
    if translations != [] {
      DragFollowsLatestTranslation(s, translations);
    }
    RunAppend(s, Drags(translations), [DragEnded(height)]);
    ExpandedSheet.RestNeverCommits(s.offsetY, height);
  }

  /** Tap, appear, a drag past the threshold and its release bring the shell
      back to collapsed with the sheet removed, its stale offset never reset;
      the next tap inserts the sheet again at rest with its content hidden. */
  lemma DismissRoundTrip(s: SheetState, translationY: real, height: real)
    requires Inv(s) && !s.expandSheet
    requires ExpandedSheet.CommitsDismissal(ExpandedSheet.ClampedOffset(translationY), height)
    ensures var gone := Run(s, [TapMiniBar, Appear, DragChanged(translationY), DragEnded(height)]);
      !gone.expandSheet && !gone.present && !gone.animateContent &&
      gone.offsetY == ExpandedSheet.ClampedOffset(translationY) &&
      var back := Run(gone, [TapMiniBar]);
      back.expandSheet && back.present && !back.animateContent && back.offsetY == 0.0
  {
    Home.TapOnlyWhenCollapsed(Home.MiniBarInfo, false);
    var s1 := Step(s, TapMiniBar);
    var s2 := Step(s1, Appear);
    var s3 := Step(s2, DragChanged(translationY));
    var s4 := Step(s3, DragEnded(height));
    RunFirst(s, TapMiniBar, [Appear, DragChanged(translationY), DragEnded(height)]);
    RunFirst(s1, Appear, [DragChanged(translationY), DragEnded(height)]);
    RunFirst(s2, DragChanged(translationY), [DragEnded(height)]);
    RunFirst(s3, DragEnded(height), []);
    RunFirst(s4, TapMiniBar, []);
    assert s3.offsetY == ExpandedSheet.ClampedOffset(translationY);
  }

  /** A release short of the threshold keeps the sheet expanded and brings it back to rest. */
  lemma SnapBackKeepsExpanded(s: SheetState, translationY: real, height: real)
    requires Inv(s) && s.present
    requires !ExpandedSheet.CommitsDismissal(ExpandedSheet.ClampedOffset(translationY), height)
    ensures var r := Run(s, [DragChanged(translationY), DragEnded(height)]);
      r.expandSheet && r.present && r.animateContent == s.animateContent && r.offsetY == 0.0
  {
    RunFirst(s, DragChanged(translationY), [DragEnded(height)]);
    RunFirst(Step(s, DragChanged(translationY)), DragEnded(height), []);
  }

  /** In an 800-point container the threshold is 320: a drag to 250 snaps
      back, a drag to 400 dismisses, a drag of -50 changes nothing. */
  lemma TallContainerScenario(s: SheetState)
    requires Inv(s) && s.present && s.offsetY == 0.0
    ensures Run(s, [DragChanged(250.0), DragEnded(800.0)]) == s
    ensures !Run(s, [DragChanged(400.0), DragEnded(800.0)]).present
    ensures Run(s, [DragChanged(-50.0), DragEnded(800.0)]) == s
  {
    SnapBackKeepsExpanded(s, 250.0, 800.0);
    SnapBackKeepsExpanded(s, -50.0, 800.0);
    RunFirst(s, DragChanged(400.0), [DragEnded(800.0)]);
    RunFirst(Step(s, DragChanged(400.0)), DragEnded(800.0), []);
  }

  // ---------------------------------------------------------------------------
  // The state as the views hold it
  // ---------------------------------------------------------------------------

  /** The shell's flag and the expanded sheet's fields, updated in place by
      the handlers. */
  class BottomSheet {
    var expandSheet: bool
    var present: bool
    var animateContent: bool
    var offsetY: real

    function State(): (s: SheetState)
      reads this
      ensures s.expandSheet == expandSheet && s.present == present
      ensures s.animateContent == animateContent && s.offsetY == offsetY
    {
      SheetState(expandSheet, present, animateContent, offsetY)
    }

    predicate Valid()
      reads this
    {
      Inv(State())
    }

    /** At launch the sheet is collapsed and not inserted. */
    constructor ()
      ensures Valid() && State() == Initial()
    {
      expandSheet, present, animateContent, offsetY := false, false, false, 0.0;
    }

    /** The mini bar's `MusicInfo` was tapped. */
    method TapMiniBar()
      requires Valid()
      modifies this
      ensures Valid() && State() == Tapped(old(State()))
    {
      expandSheet := true;
      if !present {
        present := true;
        animateContent := false;
        offsetY := 0.0;
      }
    }

    /** The inserted sheet appeared. */
    method Appear()
      requires Valid() && present
      modifies this
      ensures Valid() && State() == Appeared(old(State()))
    {
      animateContent := true;
    }

    /** The drag on the inserted sheet moved by `translationY`. */
    method DragChanged(translationY: real)
      requires Valid() && present
      modifies this
      ensures Valid() && State() == Dragged(old(State()), translationY)
    {
      offsetY := if translationY > 0.0 then translationY else 0.0;
    }

    /** The drag on the inserted sheet ended, in a container `height` tall. */
    method DragEnded(height: real)
      requires Valid() && present
      modifies this
      ensures Valid() && State() == Released(old(State()), height)
    {
      if offsetY > height * ExpandedSheet.DismissFraction {
        expandSheet := false;
        animateContent := false;
        present := false;
      } else {
        offsetY := 0.0;
      }
    }
  }
}
