/** The pure rendering rules of the tab shell (Home.swift): given the single
    `expandedSheet` flag, which views are on screen, whether the tab bar is
    hidden on the selected tab, which view owns each matched-geometry anchor, and which view can
    receive the tap that expands the sheet. The embedded `MusicInfo` copy and
    the artwork of the expanded sheet (ExpandedBottomSheet.swift) appear here
    as regions of the overlay the shell presents. */
module Home {

  datatype Visibility = Visible | Hidden

  /** The five tabs of the shell, in order. */
  datatype Tab = ListenNow | Browse | Radio | Music | Search

  /** The two matched-geometry identities shared between the mini bar and the sheet. */
  datatype AnchorId = BgView | Artwork

  /** The view regions that can carry an anchor or a tap handler. */
  datatype Region =
    | MiniBarPanel   // the mini bar's material rectangle
    | MiniBarInfo    // the `MusicInfo` laid over the mini bar, apart from its pause and forward buttons
    | SheetPanel     // the expanded sheet's rounded background
    | SheetInfo      // the `MusicInfo` copy laid over the top of the expanded sheet
    | SheetArtwork   // the expanded sheet's large artwork

  const AllRegions: seq<Region> := [MiniBarPanel, MiniBarInfo, SheetPanel, SheetInfo, SheetArtwork]

  /** Whether the expanded sheet is inserted in the overlay. */
  function SheetPresented(expandedSheet: bool): (presented: bool)
    ensures presented <==> expandedSheet
  {
    expandedSheet
  }

  /** The tab bar's visibility while `selected` is the selected tab. Only the
      Listen Now tab's content asks for the bar to be hidden, and only while
      the sheet is expanded; the other four tabs carry no such request. */
  function TabBarVisibility(selected: Tab, expandedSheet: bool): (visibility: Visibility)
    ensures visibility == Hidden <==> selected == ListenNow && expandedSheet
  {
    if selected == ListenNow then (if expandedSheet then Hidden else Visible) else Visible
  }

  /** Whether a region is in the rendered view tree: the mini bar's contents
      are built only in the collapsed branch, the sheet's only while the
      overlay presents it. */
  function Rendered(region: Region, expandedSheet: bool): (rendered: bool)
    ensures region in {MiniBarPanel, MiniBarInfo} ==> (rendered <==> !expandedSheet)
    ensures region !in {MiniBarPanel, MiniBarInfo} ==> (rendered <==> expandedSheet)
  {
    match region
    case MiniBarPanel | MiniBarInfo => !expandedSheet
    case SheetPanel | SheetInfo | SheetArtwork => SheetPresented(expandedSheet)
  }

  /** The anchors a `MusicInfo` contributes, given the flag it is bound to:
      its thumbnail artwork carries "ARTWORK" only while collapsed. */
  function MusicInfoAnchors(expandedSheet: bool): (anchors: set<AnchorId>)
    ensures BgView !in anchors
    ensures Artwork in anchors <==> !expandedSheet
  {
    if !expandedSheet then {Artwork} else {}
  }

  /** The anchors a region declares. Both `MusicInfo` copies are bound to the same flag. */
  function AnchorsOf(region: Region, expandedSheet: bool): (anchors: set<AnchorId>)
    ensures BgView in anchors <==> region in {MiniBarPanel, SheetPanel}
    ensures Artwork in anchors <==> region == SheetArtwork || (region in {MiniBarInfo, SheetInfo} && !expandedSheet)
  {
    match region
    case MiniBarPanel | SheetPanel => {BgView}
    case MiniBarInfo | SheetInfo => MusicInfoAnchors(expandedSheet)
    case SheetArtwork => {Artwork}
  }

  /** The rendered regions that declare `anchor`. */
  function Owners(anchor: AnchorId, expandedSheet: bool): (owners: set<Region>)
    ensures forall r :: r in owners ==> Rendered(r, expandedSheet) && anchor in AnchorsOf(r, expandedSheet)
  {
    set r | r in AllRegions && Rendered(r, expandedSheet) && anchor in AnchorsOf(r, expandedSheet)
  }

  /** The single owner each anchor is meant to have: the mini bar while
      collapsed, the expanded sheet while expanded. */
  function IntendedOwner(anchor: AnchorId, expandedSheet: bool): (owner: Region)
    ensures expandedSheet <==> owner in {SheetPanel, SheetArtwork}
  {
    match anchor
    case BgView => if expandedSheet then SheetPanel else MiniBarPanel
    case Artwork => if expandedSheet then SheetArtwork else MiniBarInfo
  }

  /** Anchor exclusivity: for either value of the flag, each anchor is declared
      by exactly one rendered region, the intended one. */
  lemma AnchorsHaveExactlyOneOwner(anchor: AnchorId, expandedSheet: bool)
    ensures Owners(anchor, expandedSheet) == {IntendedOwner(anchor, expandedSheet)}
    ensures |Owners(anchor, expandedSheet)| == 1
  {
    var owner := IntendedOwner(anchor, expandedSheet);
    assert owner in AllRegions;
    forall r | r in Owners(anchor, expandedSheet)
      ensures r == owner
    {
    }
  }

  /** The mini bar owns "BGVIEW" exactly while collapsed, the sheet exactly while expanded. */
  lemma BackgroundOwnership(expandedSheet: bool)
    ensures MiniBarPanel in Owners(BgView, expandedSheet) <==> !expandedSheet
    ensures SheetPanel in Owners(BgView, expandedSheet) <==> expandedSheet
  {
    AnchorsHaveExactlyOneOwner(BgView, expandedSheet);
  }

  /** The mini bar's `MusicInfo` owns "ARTWORK" exactly while collapsed, the
      sheet's artwork exactly while presented, and the embedded copy never. */
  lemma ArtworkOwnership(expandedSheet: bool)
    ensures MiniBarInfo in Owners(Artwork, expandedSheet) <==> !expandedSheet
    ensures SheetArtwork in Owners(Artwork, expandedSheet) <==> SheetPresented(expandedSheet)
    ensures SheetInfo !in Owners(Artwork, expandedSheet)
  {
    AnchorsHaveExactlyOneOwner(Artwork, expandedSheet);
  }

  /** On the Listen Now tab the tab bar is hidden exactly while the expanded
      sheet is presented; on any other tab it stays visible. */
  lemma TabBarHiddenIffPresented(selected: Tab, expandedSheet: bool)
    ensures selected == ListenNow ==> (TabBarVisibility(selected, expandedSheet) == Hidden <==> SheetPresented(expandedSheet))
    ensures selected != ListenNow ==> TabBarVisibility(selected, expandedSheet) == Visible
  {
  }

  /** Only the `MusicInfo` views carry the expanding tap handler. */
  function HasTapHandler(region: Region): (handles: bool)
    ensures handles <==> region in {MiniBarInfo, SheetInfo}
  {
    region == MiniBarInfo || region == SheetInfo
  }

  /** Hit testing is switched off on the copy embedded in the expanded sheet. */
  function AllowsHitTesting(region: Region): (allowed: bool)
    ensures !allowed <==> region == SheetInfo
  {
    region != SheetInfo
  }

  /** Whether a tap on `region` reaches its tap handler. */
  function ReceivesTap(region: Region, expandedSheet: bool): (receives: bool)
    ensures receives ==> Rendered(region, expandedSheet) && HasTapHandler(region) && AllowsHitTesting(region)
    ensures receives ==> !expandedSheet
  {
    Rendered(region, expandedSheet) && HasTapHandler(region) && AllowsHitTesting(region)
  }

  /** The expanding tap can only come from the mini bar's `MusicInfo`, and
      only while collapsed; the embedded copy never receives it. A tap on
      the pause or forward button is taken by that button and is not a tap
      on `MiniBarInfo`. */
  lemma TapOnlyWhenCollapsed(region: Region, expandedSheet: bool)
    ensures ReceivesTap(region, expandedSheet) <==> region == MiniBarInfo && !expandedSheet
    ensures !ReceivesTap(SheetInfo, expandedSheet)
  {
  }
}
