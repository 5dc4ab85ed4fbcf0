# Mini-player bottom sheet: expand/collapse state machine

This project models the core of an iOS "mini player" demo. A collapsible mini bar sits above the tab bar. Tapping it expands a full-screen "now playing" sheet, and a shared-element (matched-geometry) transition links the two. Dragging the sheet down dismisses it. The state is split across two SwiftUI views:

- **Home.swift.** The tab shell owns one flag, `expandedSheet`. The flag decides whether the expanded sheet is inserted as an overlay, and which view carries the `"BGVIEW"` and `"ARTWORK"` geometry anchors. On the Listen Now tab it also hides the tab bar; the other four tabs do not ask for that.
- **ExpandedBottomSheet.swift.** While it is inserted, the sheet owns `animateContent` and `offsetY`. They start at `false` and `0` on every insertion. The drag handlers and the appearance handler update them. The sheet's chrome (opacities, slide-in offsets, corner radius) and its paddings are conditional expressions over them and over the container size.

The model has three modules:

- `ExpandedSheet` (`expanded_sheet.dfy`) holds the sheet's pure rules: the drag clamp, the strict 40% dismissal threshold, the chrome driven by `animateContent`, and the layout paddings.
- `Home` (`home.dfy`) holds the shell's pure rules: overlay presence, tab-bar visibility for a given selected tab, which rendered region owns each anchor, and which region can receive the expanding tap.
- `PlayerSheet` (`player_sheet.dfy`) holds the state machine.
  - `SheetState` is the datatype of the whole state.
  - One function per handler specifies it: `Tapped`, `Appeared`, `Dragged`, `Released`.
  - Event traces (`Step`, `Run`) carry the reachability and round-trip lemmas.
  - The class `BottomSheet` holds the four fields (`expandSheet`, `present`, `animateContent`, `offsetY`). Its handler methods update those fields in place. Each method is proved to produce exactly the state its specification function gives.

`present` records whether the expanded sheet view exists, that is, whether the overlay's `if expandedSheet` branch is taken. Inserting the view gives it fresh fields. Removing it leaves the old values stale; they are discarded and never read again. This is why a committing release does not reset `offsetY`, and yet the next tap shows the sheet at rest.

Some behaviour one might expect from such a sheet is absent from the code, and the model does not add it:

- There is no tap-on-background dismissal: no handler for it exists.
- The state is one boolean, so there are no intermediate expanding or collapsing states; each animated block is one atomic update.
- There is no zero-height guard on the dismissal threshold: in a zero-height container any positive offset dismisses (`ExpandedSheet.ZeroHeightCommitsAnyDrag`).
- The commit branch leaves `offsetY` untouched; it only starts at 0 again because the removed view's state is discarded (`PlayerSheet.DismissRoundTrip`).

## Model

| member | source | states |
|---|---|---|
| `ExpandedSheet.ClampedOffset` | SwiftUIBottomSheetAnimation/SwiftUIBottomSheetAnimation/View/ExpandedBottomSheet.swift:79-81 | the live offset is never negative, never below the translation, and equals either the translation or 0 (so it is max(t, 0)) |
| `ExpandedSheet.CommitsDismissal` | SwiftUIBottomSheetAnimation/SwiftUIBottomSheetAnimation/View/ExpandedBottomSheet.swift:84 | a release dismisses only from a positive offset, unless the height is negative |
| `ExpandedSheet.ThresholdIsStrict` | SwiftUIBottomSheetAnimation/SwiftUIBottomSheetAnimation/View/ExpandedBottomSheet.swift:84 | a release exactly at 40% of the height, or below it, does not dismiss; any release above it does |
| `ExpandedSheet.RestNeverCommits` | SwiftUIBottomSheetAnimation/SwiftUIBottomSheetAnimation/View/ExpandedBottomSheet.swift:81-84 | an offset at or below 0 never dismisses in a container of non-negative height |
| `ExpandedSheet.ZeroHeightCommitsAnyDrag` | SwiftUIBottomSheetAnimation/SwiftUIBottomSheetAnimation/View/ExpandedBottomSheet.swift:84 | with no zero-height guard, a zero-height container dismisses on every positive offset |
| `ExpandedSheet.CommitIsMonotone` | SwiftUIBottomSheetAnimation/SwiftUIBottomSheetAnimation/View/ExpandedBottomSheet.swift:84 | dragging further keeps a dismissal a dismissal, and a shorter container dismisses at the same offset |
| `ExpandedSheet.ClampIsIdempotent` | SwiftUIBottomSheetAnimation/SwiftUIBottomSheetAnimation/View/ExpandedBottomSheet.swift:81 | clamping an already clamped offset changes nothing |
| `ExpandedSheet.CornerRadius` | SwiftUIBottomSheetAnimation/SwiftUIBottomSheetAnimation/View/ExpandedBottomSheet.swift:23-26 | square corners while the content is hidden, the device's display radius once it is animated in |
| `ExpandedSheet.TintOpacity` | SwiftUIBottomSheetAnimation/SwiftUIBottomSheetAnimation/View/ExpandedBottomSheet.swift:28 | the tint overlay is fully shown (1) iff `animateContent`, else fully hidden (0) |
| `ExpandedSheet.EmbeddedInfoOpacity` | SwiftUIBottomSheetAnimation/SwiftUIBottomSheetAnimation/View/ExpandedBottomSheet.swift:34 | the embedded mini-bar copy is fully shown (1) iff not `animateContent`, else hidden (0) |
| `ExpandedSheet.GrabIndicatorOpacity` | SwiftUIBottomSheetAnimation/SwiftUIBottomSheetAnimation/View/ExpandedBottomSheet.swift:43 | the grab indicator is fully shown (1) iff `animateContent`, else hidden (0) |
| `ExpandedSheet.GrabIndicatorOffset` | SwiftUIBottomSheetAnimation/SwiftUIBottomSheetAnimation/View/ExpandedBottomSheet.swift:45 | the grab indicator rests at 0 once the content is animated in, and sits one container height down before |
| `ExpandedSheet.PlayerOffset` | SwiftUIBottomSheetAnimation/SwiftUIBottomSheetAnimation/View/ExpandedBottomSheet.swift:67 | the player controls rest at 0 once the content is animated in, and sit one container height down before |
| `ExpandedSheet.ContentWidth` | SwiftUIBottomSheetAnimation/SwiftUIBottomSheetAnimation/View/ExpandedBottomSheet.swift:71 | the content column is the container width less the 25-point padding on each side (with no horizontal safe-area insets) |
| `ExpandedSheet.ArtworkHeight` | SwiftUIBottomSheetAnimation/SwiftUIBottomSheetAnimation/View/ExpandedBottomSheet.swift:60 | the artwork frame's height equals the width of the column it fills, so the artwork is square (with no horizontal safe-area insets) |
| `ExpandedSheet.ChromeCrossFades` | SwiftUIBottomSheetAnimation/SwiftUIBottomSheetAnimation/View/ExpandedBottomSheet.swift:28-67 | the embedded copy's opacity is the complement of the grab indicator's, so exactly one is visible; the tint follows the grab indicator; the grab indicator and the controls slide together and are at rest iff `animateContent` (for a non-zero height); the corners take the device's radius iff the grab indicator is shown (for a non-zero device radius, lines 23-26) |
| `ExpandedSheet.ArtworkVerticalPadding` | SwiftUIBottomSheetAnimation/SwiftUIBottomSheetAnimation/View/ExpandedBottomSheet.swift:61-62 | the artwork padding is 10 or 30, and it is 10 exactly when the container is shorter than 700 |
| `ExpandedSheet.ArtworkPaddingIsMonotone` | SwiftUIBottomSheetAnimation/SwiftUIBottomSheetAnimation/View/ExpandedBottomSheet.swift:61-62 | a taller container never gets less artwork padding |
| `ExpandedSheet.TopPadding` | SwiftUIBottomSheetAnimation/SwiftUIBottomSheetAnimation/View/ExpandedBottomSheet.swift:69 | the top padding is at least the top inset, and it equals the top inset exactly when there is a bottom inset |
| `ExpandedSheet.BottomPadding` | SwiftUIBottomSheetAnimation/SwiftUIBottomSheetAnimation/View/ExpandedBottomSheet.swift:70 | the bottom padding is never 0, and it equals the bottom inset exactly when that inset is non-zero |
| `ExpandedSheet.ContentClearsInsets` | SwiftUIBottomSheetAnimation/SwiftUIBottomSheetAnimation/View/ExpandedBottomSheet.swift:69-70 | without a bottom inset the content gets 10 extra points at each end; with one, it sits exactly inside both insets |
| `Home.IntendedOwner` | SwiftUIBottomSheetAnimation/SwiftUIBottomSheetAnimation/View/Home.swift:98-108 | the designated owner of an anchor is a region of the expanded sheet exactly when the flag is set |
| `Home.AnchorsHaveExactlyOneOwner` | SwiftUIBottomSheetAnimation/SwiftUIBottomSheetAnimation/View/Home.swift:39-40 | for either value of the flag, the rendered regions that declare an anchor are exactly its designated owner, one region |
| `Home.BackgroundOwnership` | SwiftUIBottomSheetAnimation/SwiftUIBottomSheetAnimation/View/Home.swift:98-108 | the mini bar owns "BGVIEW" iff collapsed, and the sheet's panel (ExpandedBottomSheet.swift:36) owns it iff expanded |
| `Home.ArtworkOwnership` | SwiftUIBottomSheetAnimation/SwiftUIBottomSheetAnimation/View/Home.swift:151-161 | the mini bar's `MusicInfo` owns "ARTWORK" iff collapsed; the sheet's artwork (ExpandedBottomSheet.swift:57) owns it iff presented; the embedded copy never does |
| `Home.SheetPresented` | SwiftUIBottomSheetAnimation/SwiftUIBottomSheetAnimation/View/Home.swift:39-40 | the overlay presents the expanded sheet iff the flag is set |
| `Home.TabBarVisibility` | SwiftUIBottomSheetAnimation/SwiftUIBottomSheetAnimation/View/Home.swift:18-31 | the tab bar is hidden iff the Listen Now tab is selected and the flag is set; the other tabs never hide it |
| `Home.Rendered` | SwiftUIBottomSheetAnimation/SwiftUIBottomSheetAnimation/View/Home.swift:98-109 | the mini bar's panel and `MusicInfo` are rendered iff collapsed; the sheet's regions iff the overlay presents it (Home.swift:39-40) |
| `Home.MusicInfoAnchors` | SwiftUIBottomSheetAnimation/SwiftUIBottomSheetAnimation/View/Home.swift:151-161 | a `MusicInfo` declares "ARTWORK" iff its bound flag is false, and never "BGVIEW" |
| `Home.AnchorsOf` | SwiftUIBottomSheetAnimation/SwiftUIBottomSheetAnimation/View/Home.swift:102-108 | "BGVIEW" is declared by the two panels (here and ExpandedBottomSheet.swift:36); "ARTWORK" by the sheet's artwork (ExpandedBottomSheet.swift:57) and by a `MusicInfo` while collapsed |
| `Home.Owners` | SwiftUIBottomSheetAnimation/SwiftUIBottomSheetAnimation/View/Home.swift:98-108 | every owner of an anchor is a rendered region that declares it; AnchorsHaveExactlyOneOwner gives the exact set |
| `Home.HasTapHandler` | SwiftUIBottomSheetAnimation/SwiftUIBottomSheetAnimation/View/Home.swift:198-202 | only the two `MusicInfo` copies carry the expanding tap handler |
| `Home.AllowsHitTesting` | SwiftUIBottomSheetAnimation/SwiftUIBottomSheetAnimation/View/ExpandedBottomSheet.swift:33 | hit testing is off exactly on the `MusicInfo` copy embedded in the sheet |
| `Home.ReceivesTap` | SwiftUIBottomSheetAnimation/SwiftUIBottomSheetAnimation/View/Home.swift:197-202 | a tap reaches the handler only on a rendered, hit-testable region with the handler, and only while collapsed |
| `Home.TabBarHiddenIffPresented` | SwiftUIBottomSheetAnimation/SwiftUIBottomSheetAnimation/View/Home.swift:18-31 | on the Listen Now tab the tab bar is hidden exactly while the expanded sheet is presented (Home.swift:39); on the other four tabs it stays visible |
| `Home.TapOnlyWhenCollapsed` | SwiftUIBottomSheetAnimation/SwiftUIBottomSheetAnimation/View/Home.swift:98-105 | a tap reaches the expanding handler iff it lands on the mini bar's `MusicInfo` (apart from its pause and forward buttons) while collapsed; the embedded copy, with hit testing off (ExpandedBottomSheet.swift:33), never receives it |
| `PlayerSheet.Rerender` | SwiftUIBottomSheetAnimation/SwiftUIBottomSheetAnimation/View/Home.swift:39-40 | after the flag changes, the sheet is present iff the flag is set; a newly inserted sheet has its content hidden and offset 0; otherwise its fields are kept |
| `PlayerSheet.Tapped` | SwiftUIBottomSheetAnimation/SwiftUIBottomSheetAnimation/View/Home.swift:198-202 | after a tap the flag is set and the sheet is present; it is fresh if it was absent and untouched if it was present |
| `PlayerSheet.Appeared` | SwiftUIBottomSheetAnimation/SwiftUIBottomSheetAnimation/View/ExpandedBottomSheet.swift:96-99 | appearance sets `animateContent` and changes nothing else |
| `PlayerSheet.Dragged` | SwiftUIBottomSheetAnimation/SwiftUIBottomSheetAnimation/View/ExpandedBottomSheet.swift:79-81 | a drag change leaves the offset non-negative and at least the translation, and leaves the flag and the content untouched |
| `PlayerSheet.Released` | SwiftUIBottomSheetAnimation/SwiftUIBottomSheetAnimation/View/ExpandedBottomSheet.swift:82-89 | past the threshold: flag and content off, sheet removed, offset untouched; otherwise: offset 0 and everything else unchanged |
| `PlayerSheet.HandlersPreserveInv` | SwiftUIBottomSheetAnimation/SwiftUIBottomSheetAnimation/View/ExpandedBottomSheet.swift:79-99 | every handler keeps "present iff flag set" and "offset non-negative" |
| `PlayerSheet.TapIsIdempotent` | SwiftUIBottomSheetAnimation/SwiftUIBottomSheetAnimation/View/Home.swift:198-202 | a second tap changes nothing |
| `PlayerSheet.InsertionStartsFresh` | SwiftUIBottomSheetAnimation/SwiftUIBottomSheetAnimation/View/ExpandedBottomSheet.swift:14-15 | a tap from collapsed inserts a sheet with its content hidden and offset 0; its appearance then sets `animateContent` (ExpandedBottomSheet.swift:96-99) |
| `PlayerSheet.ReleaseAtThreshold` | SwiftUIBottomSheetAnimation/SwiftUIBottomSheetAnimation/View/ExpandedBottomSheet.swift:84-88 | a release exactly at 40% keeps the sheet present and resets the offset to 0; a release beyond it removes the sheet |
| `PlayerSheet.Delivered` | SwiftUIBottomSheetAnimation/SwiftUIBottomSheetAnimation/View/Home.swift:198-202 | a tap event reaches its handler only while collapsed |
| `PlayerSheet.Inv` | SwiftUIBottomSheetAnimation/SwiftUIBottomSheetAnimation/View/ExpandedBottomSheet.swift:14-15 | a valid state has the sheet inserted iff its panel is rendered, iff the mini bar's `MusicInfo` is not (exactly one tree on screen), and a non-negative offset |
| `PlayerSheet.Initial` | SwiftUIBottomSheetAnimation/SwiftUIBottomSheetAnimation/View/Home.swift:12 | at launch the flag is false, no sheet is inserted, and the state is valid with content hidden and offset 0 |
| `PlayerSheet.Step` | SwiftUIBottomSheetAnimation/SwiftUIBottomSheetAnimation/View/ExpandedBottomSheet.swift:79-99 | one event keeps the invariant, and an event that reaches no handler changes nothing |
| `PlayerSheet.Run` | SwiftUIBottomSheetAnimation/SwiftUIBottomSheetAnimation/View/ExpandedBottomSheet.swift:79-99 | any sequence of events keeps the invariant (proved through the recursive calls' contract) |
| `PlayerSheet.ReachableStatesAreConsistent` | SwiftUIBottomSheetAnimation/SwiftUIBottomSheetAnimation/View/Home.swift:12-40 | every state reachable from launch keeps the invariant, hides the Listen Now tab's bar iff the sheet is present, and has exactly one owner per anchor |
| `PlayerSheet.DragFollowsLatestTranslation` | SwiftUIBottomSheetAnimation/SwiftUIBottomSheetAnimation/View/ExpandedBottomSheet.swift:79-81 | after a series of drag changes, the state is the original one with the offset clamped to the latest translation |
| `PlayerSheet.UpwardDragNeverDismisses` | SwiftUIBottomSheetAnimation/SwiftUIBottomSheetAnimation/View/ExpandedBottomSheet.swift:81-84 | upward-only drags leave a sheet at rest unchanged, and their release in a container of non-negative height changes nothing |
| `PlayerSheet.DismissRoundTrip` | SwiftUIBottomSheetAnimation/SwiftUIBottomSheetAnimation/View/ExpandedBottomSheet.swift:84-86 | tap, appear, a committing drag and its release return to collapsed, with the sheet removed and the offset left at the drag value; the next tap (Home.swift:198-202) re-inserts the sheet at offset 0 with its content hidden |
| `PlayerSheet.SnapBackKeepsExpanded` | SwiftUIBottomSheetAnimation/SwiftUIBottomSheetAnimation/View/ExpandedBottomSheet.swift:87-88 | a drag released short of the threshold keeps the sheet expanded and present, with its content untouched and the offset back at 0 |
| `PlayerSheet.TallContainerScenario` | SwiftUIBottomSheetAnimation/SwiftUIBottomSheetAnimation/View/ExpandedBottomSheet.swift:79-89 | with an 800-point container: a drag to 250 snaps back, a drag to 400 dismisses, a drag of -50 changes nothing |
| `PlayerSheet.BottomSheet.constructor` | SwiftUIBottomSheetAnimation/SwiftUIBottomSheetAnimation/View/Home.swift:12 | at launch the flag is false and no sheet is inserted |
| `PlayerSheet.BottomSheet.TapMiniBar` | SwiftUIBottomSheetAnimation/SwiftUIBottomSheetAnimation/View/Home.swift:198-202 | the fields are updated in place to exactly `Tapped` of the old state, keeping the invariant |
| `PlayerSheet.BottomSheet.Appear` | SwiftUIBottomSheetAnimation/SwiftUIBottomSheetAnimation/View/ExpandedBottomSheet.swift:96-99 | the fields are updated in place to exactly `Appeared` of the old state |
| `PlayerSheet.BottomSheet.DragChanged` | SwiftUIBottomSheetAnimation/SwiftUIBottomSheetAnimation/View/ExpandedBottomSheet.swift:79-81 | the fields are updated in place to exactly `Dragged` of the old state |
| `PlayerSheet.BottomSheet.DragEnded` | SwiftUIBottomSheetAnimation/SwiftUIBottomSheetAnimation/View/ExpandedBottomSheet.swift:82-91 | the fields are updated in place to exactly `Released` of the old state, keeping the invariant |

## Left out

- Rendering and layout containers are not modelled: `TabView`, `ZStack`, `GeometryReader` and view modifiers. Only the values the modifiers are given are modelled.
- Animation timing and curves are not modelled: the 0.35 and 0.3 ease-in-out blocks and the asymmetric removal transition. Each animated block is one atomic state update, so a view being removed is not rendered during its removal animation.
- Matched-geometry frame interpolation is not modelled; only which region declares each anchor id is.
- The device's display corner radius comes from a private UIKit key lookup on the screen object. It is a parameter of `ExpandedSheet.CornerRadius`.
- `PlayerSheet.Appear`: the appearance handler is modelled as an event that can arrive whenever the sheet is inserted, not only once per insertion. This is safe because the handler is idempotent.
- `Home.TapOnlyWhenCollapsed`: the pause and forward buttons inside `MusicInfo` (Home.swift:175-192) take the taps that land on them, so those taps go to the buttons' empty actions and do not expand the sheet. `MiniBarInfo` stands for the rest of `MusicInfo`; the buttons are not a region of the model.
- `ExpandedSheet.ContentWidth` and `ExpandedSheet.ArtworkHeight`: one `width` stands for both the reader's width (ExpandedBottomSheet.swift:60) and the padded column's container (line 71), which `.ignoresSafeArea` (line 93) stretches over the horizontal safe-area insets. The two are equal only when those insets are 0, as in portrait; the model does not take horizontal insets.
- `PlayerSheet.Run`: a tap on a region that is not rendered or not hit-testable, and a sheet event while no sheet is inserted, are dropped. The host delivers neither.
- `PlayerSheet.BottomSheet.TapMiniBar`: the handler itself runs unconditionally, as the closure does. Only `PlayerSheet.Delivered` and `Home.TapOnlyWhenCollapsed` restrict when a tap reaches it.
- The drag-ended handler ignores the gesture value and reads only `offsetY` and the container height, so `DragEnded` takes only the height.
- Tab selection is not modelled as state: the selected tab is a parameter of `Home.TabBarVisibility`, and the trace lemmas state the tab-bar rule for the Listen Now tab.
- CGFloat rounding is not modelled: lengths are exact `real`s.
- Not modelled, because they are static content or do nothing:
  - all button actions (play/pause, skip, menu, lyrics, AirPods, queue), which are empty;
  - `ListenNow`, `sampleTabView` and the tab items;
  - the mini bar's fixed height (70), its -49 offset and the separator line;
  - the player view's inner layout (ExpandedBottomSheet.swift:103-231): its dynamic spacing, the two fixed-height sections, the controls' share of the height and the compact-font threshold;
  - the `Preview` blocks.
