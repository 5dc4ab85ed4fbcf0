/** The pure rendering rules of the expanded "now playing" sheet
    (ExpandedBottomSheet.swift): the chrome that `animateContent` drives,
    the paddings that the container size and safe-area insets drive, and
    the two rules of the drag-to-dismiss gesture (clamping the live offset,
    and the dismissal threshold on release). Lengths are `real`: the model
    does not round like CGFloat does. */
module ExpandedSheet {

  /** The fraction of the container height that a release must strictly exceed to dismiss. */
  const DismissFraction: real := 0.4

  /** The horizontal padding around the sheet's content column. */
  const HorizontalPadding: real := 25.0

  /** Containers shorter than this get the compact artwork padding. */
  const CompactHeight: real := 700.0

  // ---------------------------------------------------------------------------
  // Drag gesture
  // ---------------------------------------------------------------------------

  /** The live vertical offset of the sheet for a drag translation: the sheet
      follows a downward drag and ignores an upward one. The three clauses
      together say that the offset is max(translationY, 0). */
  function ClampedOffset(translationY: real): (offset: real)
    ensures offset >= 0.0
    ensures offset >= translationY
    ensures offset == translationY || offset == 0.0
  {
    if translationY > 0.0 then translationY else 0.0
  }

  /** Whether releasing the sheet at `offsetY`, in a container `height` tall,
      dismisses it. There is no guard for a degenerate height. */
  function CommitsDismissal(offsetY: real, height: real): (commit: bool)
    ensures commit ==> offsetY > 0.0 || height < 0.0
  {
    offsetY > height * DismissFraction
  }

  /** The threshold is strict: a release exactly at 40% of the height snaps
      back, and every release beyond it, however slightly, dismisses. */
  lemma ThresholdIsStrict(height: real, eps: real)
    requires eps > 0.0
    ensures !CommitsDismissal(height * DismissFraction, height)
    ensures CommitsDismissal(height * DismissFraction + eps, height)
    ensures !CommitsDismissal(height * DismissFraction - eps, height)
  {
  }

  /** A sheet at rest (or clamped there by an upward drag) is never dismissed
      by a release in a container of non-negative height. */
  lemma RestNeverCommits(offsetY: real, height: real)
    requires offsetY <= 0.0 && height >= 0.0
    ensures !CommitsDismissal(offsetY, height)
  {
  }

  /** With no zero-height guard, a zero-height container dismisses on any
      positive offset. */
  lemma ZeroHeightCommitsAnyDrag(offsetY: real)
    requires offsetY > 0.0
    ensures CommitsDismissal(offsetY, 0.0)
  {
  }

  /** Dragging further never turns a dismissal into a snap-back, and a
      shorter container never needs a longer drag. */
  lemma CommitIsMonotone(offsetY: real, further: real, height: real, shorter: real)
    requires CommitsDismissal(offsetY, height)
    requires offsetY <= further && 0.0 <= shorter <= height
    ensures CommitsDismissal(further, height)
    ensures CommitsDismissal(offsetY, shorter)
  {
  }

  /** Clamping is idempotent: a clamped offset fed back as a translation stays put. */
  lemma ClampIsIdempotent(translationY: real)
    ensures ClampedOffset(ClampedOffset(translationY)) == ClampedOffset(translationY)
  {
  }

  // ---------------------------------------------------------------------------
  // Chrome, driven by `animateContent` (the corner radius also by the device)
  // ---------------------------------------------------------------------------

  /** The corner radius of the background panel and of its tint overlay:
      square while the content is hidden, the device's own display corners
      once it is animated in. The device's radius comes from the host platform. */
  function CornerRadius(animateContent: bool, deviceCornerRadius: real): (radius: real)
    ensures animateContent ==> radius == deviceCornerRadius
    ensures !animateContent ==> radius == 0.0
  {
    if animateContent then deviceCornerRadius else 0.0
  }

  /** The opacity of the tint overlay on the background panel: fully shown
      exactly while the content is animated in, otherwise fully hidden. */
  function TintOpacity(animateContent: bool): (opacity: real)
    ensures opacity == 0.0 || opacity == 1.0
    ensures opacity == 1.0 <==> animateContent
  {
    if animateContent then 1.0 else 0.0
  }

  /** The opacity of the mini-bar copy (`MusicInfo`) laid over the top of the
      sheet: fully shown exactly while the content is not animated in. */
  function EmbeddedInfoOpacity(animateContent: bool): (opacity: real)
    ensures opacity == 0.0 || opacity == 1.0
    ensures opacity == 1.0 <==> !animateContent
  {
    if animateContent then 0.0 else 1.0
  }

  /** The opacity of the grab indicator capsule: fully shown exactly while the
      content is animated in. */
  function GrabIndicatorOpacity(animateContent: bool): (opacity: real)
    ensures opacity == 0.0 || opacity == 1.0
    ensures opacity == 1.0 <==> animateContent
  {
    if animateContent then 1.0 else 0.0
  }

  /** The vertical offset of the grab indicator: at rest once the content is
      animated in, otherwise one container height below. */
  function GrabIndicatorOffset(animateContent: bool, height: real): (offset: real)
    ensures animateContent ==> offset == 0.0
    ensures !animateContent ==> offset == height
  {
    if animateContent then 0.0 else height
  }

  /** The vertical offset of the player controls: at rest once the content is
      animated in, otherwise one container height below. */
  function PlayerOffset(animateContent: bool, height: real): (offset: real)
    ensures animateContent ==> offset == 0.0
    ensures !animateContent ==> offset == height
  {
    if animateContent then 0.0 else height
  }

  /** The chrome elements move together: the embedded mini-bar copy and the
      grab indicator cross-fade (their opacities sum to 1, so exactly one is
      visible), the tint follows the grab indicator, and the grab indicator
      and the controls slide together, reaching rest exactly when the content
      is animated in (for a non-zero height). The corner radius rounds to the
      device's radius exactly while the grab indicator is shown (for a device
      with rounded corners). */
  lemma ChromeCrossFades(animateContent: bool, height: real, deviceCornerRadius: real)
    ensures EmbeddedInfoOpacity(animateContent) + GrabIndicatorOpacity(animateContent) == 1.0
    ensures TintOpacity(animateContent) == GrabIndicatorOpacity(animateContent)
    ensures GrabIndicatorOffset(animateContent, height) == PlayerOffset(animateContent, height)
    ensures height != 0.0 ==> (PlayerOffset(animateContent, height) == 0.0 <==> animateContent)
    ensures deviceCornerRadius != 0.0 ==>
              (CornerRadius(animateContent, deviceCornerRadius) == deviceCornerRadius <==> GrabIndicatorOpacity(animateContent) == 1.0)
  {
  }

  // ---------------------------------------------------------------------------
  // Layout rules
  // ---------------------------------------------------------------------------

  /** The vertical padding around the artwork: 10 on small devices, 30 on large ones. */
  function ArtworkVerticalPadding(height: real): (padding: real)
    ensures padding == 10.0 || padding == 30.0
    ensures padding == 10.0 <==> height < CompactHeight
  {
    if height < CompactHeight then 10.0 else 30.0
  }

  /** The width of the content column: the container width less the
      horizontal padding on either side. The artwork's reader fills it.
      `width` is the container width that the artwork frame also reads; the
      padded column is stretched over the horizontal safe-area insets, so
      the two agree only when those insets are 0, as in portrait. */
  function ContentWidth(width: real): (columnWidth: real)
    ensures columnWidth + 2.0 * HorizontalPadding == width
    ensures columnWidth < width
  {
    width - HorizontalPadding - HorizontalPadding
  }

  /** The artwork's frame height, from the container width. It equals the
      width of the column the artwork fills, so the artwork is square
      (with no horizontal safe-area insets, see `ContentWidth`). */
  function ArtworkHeight(width: real): (artworkHeight: real)
    ensures artworkHeight == ContentWidth(width)
  {
    width - 50.0
  }

  /** The top padding of the content column: devices without a bottom inset
      get 10 extra points below the top inset. */
  function TopPadding(safeTop: real, safeBottom: real): (padding: real)
    ensures padding >= safeTop
    ensures padding == safeTop <==> safeBottom != 0.0
  {
    safeTop + (if safeBottom == 0.0 then 10.0 else 0.0)
  }

  /** The bottom padding of the content column: the bottom inset, or 10 when there is none. */
  function BottomPadding(safeBottom: real): (padding: real)
    ensures padding != 0.0
    ensures padding == safeBottom <==> safeBottom != 0.0
  {
    if safeBottom == 0.0 then 10.0 else safeBottom
  }

  /** Taller containers never get less artwork padding than shorter ones. */
  lemma ArtworkPaddingIsMonotone(shorter: real, taller: real)
    requires shorter <= taller
    ensures ArtworkVerticalPadding(shorter) <= ArtworkVerticalPadding(taller)
  {
  }

  /** Content never touches the screen's edges: on a device without a bottom
      inset it gets 10 points at each end beyond the insets, and otherwise it
      sits exactly inside the insets. */
  lemma ContentClearsInsets(safeTop: real, safeBottom: real)
    ensures safeBottom == 0.0 ==> TopPadding(safeTop, safeBottom) - safeTop == 10.0 && BottomPadding(safeBottom) - safeBottom == 10.0
    ensures safeBottom != 0.0 ==> TopPadding(safeTop, safeBottom) == safeTop && BottomPadding(safeBottom) == safeBottom
  {
  }
}
