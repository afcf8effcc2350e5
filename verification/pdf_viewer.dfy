/** The drawing viewer of the construction-documents screen: the list of
    attachments and its filter, page navigation, zoom, the split-view and
    bookmark-mode toggles, and the bookmarks drawn over the current page.
    Rendering is left to the browser; only the viewer's state is
    modelled. */
module PdfViewer {
  import opened Wrappers
  import opened Sums
  import Arith
  import Numerals
  import Text
  import JsNumbers

  /** An attachment in the list, by id and file name. */
  datatype Attachment = Attachment(id: int, name: string)

  /** A bookmark drawn on a page.  `x` and `y` are fractions of the page's
      width and height; a bookmark just clicked and not yet saved has no id
      and is marked temporary. */
  datatype Bookmark = Bookmark(
    id: Option<int>, pageNumber: int, x: real, y: real, color: string,
    signType: Option<int>, signTypeName: Option<string>, temp: bool)

  /** The viewer's state. */
  datatype Viewer = Viewer(
    currentPage: int, totalPages: int, scale: real, zoomPercent: string,
    isSplitView: bool, isBookmarkMode: bool,
    filterText: string, attachments: seq<Attachment>, filtered: seq<Attachment>,
    selected: Option<int>, bookmarks: seq<Bookmark>)

  /** The highlight colour of a bookmark that has none of its own. */
  const DefaultColor: string := "#FFFF00"

  /** How much one press of a zoom button changes the scale, and the
      scale's bounds. */
  const ZoomStep: real := 0.25
  const MinScale: real := 0.25
  const MaxScale: real := 4.0

  /** The state the viewer starts in: page 1 of nothing, at 100%. */
  function Initial(attachments: seq<Attachment>): (v: Viewer)
    ensures Valid(v) && v.scale == 1.0 && v.filtered == v.attachments
  {
    assert Numerals.IntText(100) == "100";
    Viewer(1, 0, 1.0, "100%", false, false, "", attachments, attachments, None, [])
  }

  // ---------------------------------------------------------------------
  // Invariant
  // ---------------------------------------------------------------------

  /** The scales the buttons can reach: a whole number of quarters between
      a quarter and four. */
  predicate ZoomOk(s: real) {
    MinScale <= s <= MaxScale && Numerals.IsWhole(s * 4.0)
  }

  /** `Math.round(scale * 100) + "%"`. */
  function PercentText(s: real): string {
    Numerals.IntText(Arith.JsRound(s * 100.0)) + "%"
  }

  /** The page shown is a page of the document (page 1 while none is
      open), the scale is reachable and the label shows it. */
  predicate Valid(v: Viewer) {
    && 1 <= v.currentPage
    && (v.currentPage <= v.totalPages || v.currentPage == 1)
    && ZoomOk(v.scale)
    && v.zoomPercent == PercentText(v.scale)
  }

  // ---------------------------------------------------------------------
  // Pages
  // ---------------------------------------------------------------------

  /** Opening a document of `pages` pages shows its first page. */
  function Open(v: Viewer, attachment: int, pages: nat): (r: Viewer)
    ensures Valid(v) ==> Valid(r)
    ensures r.currentPage == 1 && r.totalPages == pages && r.selected == Some(attachment)
    ensures r == v.(currentPage := 1, totalPages := pages, selected := Some(attachment))
  {
    v.(currentPage := 1, totalPages := pages, selected := Some(attachment))
  }

  /** `prevPage`: back one page unless on the first. */
  function PrevPage(v: Viewer): (r: Viewer)
    ensures Valid(v) ==> Valid(r)
    ensures v.currentPage > 1 ==> r.currentPage == v.currentPage - 1
    ensures v.currentPage <= 1 ==> r == v
    ensures r == v.(currentPage := r.currentPage)
  {
    if v.currentPage > 1 then v.(currentPage := v.currentPage - 1) else v
  }

  /** `nextPage`: forward one page unless on the last. */
  function NextPage(v: Viewer): (r: Viewer)
    ensures Valid(v) ==> Valid(r)
    ensures v.currentPage < v.totalPages ==> r.currentPage == v.currentPage + 1
    ensures v.currentPage >= v.totalPages ==> r == v
    ensures r == v.(currentPage := r.currentPage)
  {
    if v.currentPage < v.totalPages then v.(currentPage := v.currentPage + 1) else v
  }

  /** `goToPage`: a page of the document is shown; any other number is
      ignored. */
  function GoToPage(v: Viewer, n: int): (r: Viewer)
    ensures Valid(v) ==> Valid(r)
    ensures 1 <= n <= v.totalPages ==> r.currentPage == n
    ensures !(1 <= n <= v.totalPages) ==> r == v
    ensures r == v.(currentPage := r.currentPage)
  {
    if 1 <= n <= v.totalPages then v.(currentPage := n) else v
  }

  /** `onPageInputChange`: the typed text read by `parseInt`; text that is
      not a number changes nothing. */
  function PageInput(v: Viewer, text: string): (r: Viewer)
    ensures Valid(v) ==> Valid(r)
    ensures JsNumbers.ParseInt(text).None? ==> r == v
    ensures JsNumbers.ParseInt(text).Some? ==> r == GoToPage(v, JsNumbers.ParseInt(text).value)
  {
    match JsNumbers.ParseInt(text)
    case None => v
    case Some(n) => GoToPage(v, n)
  }

  /** Typing a page number shows exactly that page when the document has
      it, and the shown page otherwise. */
  lemma {:induction false} TypedPage(v: Viewer, n: int)
    ensures PageInput(v, Numerals.IntText(n)).currentPage ==
      (if 1 <= n <= v.totalPages then n else v.currentPage)
  {
    JsNumbers.ParseIntText(n, "");
    assert Numerals.IntText(n) + "" == Numerals.IntText(n);
  }

  /** Forward then back returns to the same page, away from the end of the
      document; back then forward likewise away from its start. */
  lemma PagesInverse(v: Viewer)
    requires 1 <= v.currentPage
    ensures v.currentPage < v.totalPages ==> PrevPage(NextPage(v)) == v
    ensures 1 < v.currentPage <= v.totalPages ==> NextPage(PrevPage(v)) == v
  {
  }

  /** The page shown is a page of the document after any sequence of
      steps, whatever page numbers are typed. */
  datatype Step = Prev | Next | Go(n: int) | Typed(text: string) | OpenDoc(attachment: int, pages: nat)
                | ZoomInStep | ZoomOutStep | ResetZoomStep

  function Apply(v: Viewer, s: Step): Viewer {
    match s
    case Prev => PrevPage(v)
    case Next => NextPage(v)
    case Go(n) => GoToPage(v, n)
    case Typed(t) => PageInput(v, t)
    case OpenDoc(a, p) => Open(v, a, p)
    case ZoomInStep => ZoomIn(v)
    case ZoomOutStep => ZoomOut(v)
    case ResetZoomStep => ResetZoom(v)
  }

  function Run(v: Viewer, steps: seq<Step>): Viewer
    decreases |steps|
  {
    if |steps| == 0 then v else Run(Apply(v, steps[0]), steps[1..])
  }

  lemma {:induction false} RunKeepsValid(v: Viewer, steps: seq<Step>)
    requires Valid(v)
    ensures Valid(Run(v, steps))
    ensures 1 <= Run(v, steps).currentPage
    ensures Run(v, steps).totalPages >= 1 ==> Run(v, steps).currentPage <= Run(v, steps).totalPages
    decreases |steps|
  {
    if |steps| > 0 {
      RunKeepsValid(Apply(v, steps[0]), steps[1..]);
    }
  }

  // ---------------------------------------------------------------------
  // Zoom
  // ---------------------------------------------------------------------

  /** `zoomIn`: a quarter larger, at most 400%. */
  function ZoomIn(v: Viewer): (r: Viewer)
    ensures ZoomOk(v.scale) ==> ZoomOk(r.scale)
    ensures Valid(v) ==> Valid(r)
    ensures r.scale == (if v.scale + ZoomStep < MaxScale then v.scale + ZoomStep else MaxScale)
    ensures r.zoomPercent == PercentText(r.scale)
    ensures r == v.(scale := r.scale, zoomPercent := r.zoomPercent)
  {
    var s := if v.scale + ZoomStep < MaxScale then v.scale + ZoomStep else MaxScale;
    assert ZoomOk(v.scale) ==> ZoomOk(s) by {
      if ZoomOk(v.scale) {
        Quarters(v.scale, 1);
      }
    }
    v.(scale := s, zoomPercent := PercentText(s))
  }

  /** `zoomOut`: a quarter smaller, at least 25%. */
  function ZoomOut(v: Viewer): (r: Viewer)
    ensures ZoomOk(v.scale) ==> ZoomOk(r.scale)
    ensures Valid(v) ==> Valid(r)
    ensures r.scale == (if v.scale - ZoomStep > MinScale then v.scale - ZoomStep else MinScale)
    ensures r.zoomPercent == PercentText(r.scale)
    ensures r == v.(scale := r.scale, zoomPercent := r.zoomPercent)
  {
    var s := if v.scale - ZoomStep > MinScale then v.scale - ZoomStep else MinScale;
    assert ZoomOk(v.scale) ==> ZoomOk(s) by {
      if ZoomOk(v.scale) {
        Quarters(v.scale, -1);
      }
    }
    v.(scale := s, zoomPercent := PercentText(s))
  }

  /** `resetZoom`: back to 100%. */
  function ResetZoom(v: Viewer): (r: Viewer)
    ensures Valid(v) ==> Valid(r)
    ensures r.scale == 1.0 && r.zoomPercent == "100%"
    ensures r == v.(scale := r.scale, zoomPercent := r.zoomPercent)
  {
    assert Numerals.IntText(100) == "100";
    v.(scale := 1.0, zoomPercent := "100%")
  }

  /** Moving a whole number of quarters keeps a whole number of quarters. */
  lemma {:induction false} Quarters(s: real, k: int)
    requires Numerals.IsWhole(s * 4.0)
    ensures Numerals.IsWhole((s + k as real * ZoomStep) * 4.0)
  {
    var q := (s * 4.0).Floor;
    assert (s + k as real * ZoomStep) * 4.0 == (q + k) as real;
  }

  /** On a reachable scale the label is the exact percentage: the
      rounding never moves it. */
  lemma {:induction false} PercentExact(s: real)
    requires ZoomOk(s)
    ensures Arith.JsRound(s * 100.0) as real == s * 100.0
  {
    var q := (s * 4.0).Floor;
    assert s * 100.0 == (25 * q) as real;
  }

  /** Zooming in then out returns to the same scale and label below the
      maximum, and out then in likewise above the minimum; at the bounds
      the buttons do nothing. */
  lemma {:induction false} ZoomInverse(v: Viewer)
    requires Valid(v)
    ensures v.scale < MaxScale ==> ZoomOut(ZoomIn(v)) == v
    ensures v.scale > MinScale ==> ZoomIn(ZoomOut(v)) == v
    ensures v.scale == MaxScale ==> ZoomIn(v) == v
    ensures v.scale == MinScale ==> ZoomOut(v) == v
  {
    QuarterGap(v.scale);
  }

  /** A reachable scale below the maximum is at least a quarter below it,
      and above the minimum at least a quarter above it. */
  lemma {:induction false} QuarterGap(s: real)
    requires ZoomOk(s)
    ensures s < MaxScale ==> s + ZoomStep <= MaxScale
    ensures s > MinScale ==> s - ZoomStep >= MinScale
  {
    var q := (s * 4.0).Floor;
    assert s == q as real / 4.0;
  }

  /** Three presses of zoom-in from 100% show 175%. */
  lemma ThreeZoomIns(v: Viewer)
    ensures var r := ZoomIn(ZoomIn(ZoomIn(ResetZoom(v))));
      r.scale == 1.75 && r.zoomPercent == "175%"
  {
    assert Arith.JsRound(175.0) == 175;
    assert Numerals.IntText(175) == "175";
  }

  // ---------------------------------------------------------------------
  // Toggles
  // ---------------------------------------------------------------------

  /** `toggleSplitView`. */
  function ToggleSplitView(v: Viewer): (r: Viewer)
    ensures r.isSplitView != v.isSplitView
    ensures r == v.(isSplitView := r.isSplitView)
  {
    v.(isSplitView := !v.isSplitView)
  }

  /** `toggleBookmarkMode`. */
  function ToggleBookmarkMode(v: Viewer): (r: Viewer)
    ensures r.isBookmarkMode != v.isBookmarkMode
    ensures r == v.(isBookmarkMode := r.isBookmarkMode)
  {
    v.(isBookmarkMode := !v.isBookmarkMode)
  }

  /** Toggling twice restores the viewer. */
  lemma TogglesInvolutive(v: Viewer)
    ensures ToggleSplitView(ToggleSplitView(v)) == v
    ensures ToggleBookmarkMode(ToggleBookmarkMode(v)) == v
  {
  }

  // ---------------------------------------------------------------------
  // Attachment filter
  // ---------------------------------------------------------------------

  /** The attachment's name contains the filter, ignoring case. */
  predicate NameMatches(a: Attachment, filter: string) {
    Text.Contains(Text.Lower(a.name), Text.Lower(filter))
  }

  /** `onFilterChange` and `filterAttachments`: with a filter, the
      attachments whose name contains it regardless of case, in list order;
      without one, all of them. */
  function SetFilter(v: Viewer, text: string): (r: Viewer)
    ensures r.filterText == text
    ensures text == "" ==> r.filtered == v.attachments
    ensures text != "" ==> forall a :: a in r.filtered <==> a in v.attachments && NameMatches(a, text)
    ensures r == v.(filterText := r.filterText, filtered := r.filtered)
  {
    var f := Text.Lower(text);
    v.(filterText := text,
       filtered := if f == "" then v.attachments
                   else Filter(v.attachments, (a: Attachment) => Text.Contains(Text.Lower(a.name), f)))
  }

  /** The filter ignores case: typing it in capitals lists the same
      attachments; and a filter every name contains lists them all. */
  lemma {:induction false} FilterIgnoresCase(v: Viewer, text: string)
    ensures SetFilter(v, text).filtered == SetFilter(v, Text.Lower(text)).filtered
  {
    Text.LowerIdempotent(text);
  }

  /** The filtered list keeps the list's order: it is the list with the
      non-matching attachments dropped. */
  lemma {:induction false} FilterKeepsOrder(v: Viewer, text: string, extra: Attachment)
    requires text != "" && NameMatches(extra, text)
    ensures SetFilter(v.(attachments := v.attachments + [extra]), text).filtered ==
      SetFilter(v, text).filtered + [extra]
  {
    var p := (a: Attachment) => Text.Contains(Text.Lower(a.name), Text.Lower(text));
    FilterAppend(v.attachments, [extra], p);
    assert Filter([extra], p) == [extra];
  }

  // ---------------------------------------------------------------------
  // Bookmarks
  // ---------------------------------------------------------------------

  /** The canvas as the browser reports it. */
  datatype Rect = Rect(left: real, top: real, width: real, height: real)

  /** What the viewer asks its parent to create. */
  datatype Request = Request(attachment: int, pageNumber: int, x: real, y: real)

  /** What a click on the page does: nothing (bookmark mode off); a request
      to the parent, which creates the bookmark; a temporary marker drawn
      by the viewer itself; or a failure, when the parent is to be asked
      but no attachment is selected. */
  datatype Click = Ignored | Requested(request: Request) | Marked(viewer: Viewer) | NoAttachment

  /** `onCanvasClick` and `createBookmarkAt`: in bookmark mode, the click's
      position as fractions of the canvas, on the current page. */
  function CanvasClick(v: Viewer, clientX: real, clientY: real, rect: Rect, hasParentHandler: bool): (r: Click)
    requires rect.width > 0.0 && rect.height > 0.0
    ensures !v.isBookmarkMode <==> r == Ignored
    ensures v.isBookmarkMode && hasParentHandler && v.selected.Some? ==>
      r == Requested(Request(v.selected.value, v.currentPage,
                             (clientX - rect.left) / rect.width, (clientY - rect.top) / rect.height))
    ensures v.isBookmarkMode && hasParentHandler && v.selected.None? ==> r == NoAttachment
    ensures v.isBookmarkMode && !hasParentHandler ==>
      r.Marked? && r.viewer == v.(bookmarks := r.viewer.bookmarks)
      && r.viewer.bookmarks == v.bookmarks + [Bookmark(None, v.currentPage,
                                                      (clientX - rect.left) / rect.width,
                                                      (clientY - rect.top) / rect.height,
                                                      DefaultColor, None, None, true)]
  {
    if !v.isBookmarkMode then Ignored
    else
      var x := (clientX - rect.left) / rect.width;
      var y := (clientY - rect.top) / rect.height;
      if hasParentHandler then
        match v.selected
        case Some(a) => Requested(Request(a, v.currentPage, x, y))
        case None => NoAttachment
      else
        Marked(v.(bookmarks := v.bookmarks + [Bookmark(None, v.currentPage, x, y, DefaultColor, None, None, true)]))
  }

  /** A click inside the canvas lands inside the page: both fractions are
      between 0 and 1. */
  lemma ClickInsidePage(v: Viewer, clientX: real, clientY: real, rect: Rect)
    requires rect.width > 0.0 && rect.height > 0.0
    requires rect.left <= clientX <= rect.left + rect.width
    requires rect.top <= clientY <= rect.top + rect.height
    requires v.isBookmarkMode
    ensures var r := CanvasClick(v, clientX, clientY, rect, false);
      var b := r.viewer.bookmarks[|r.viewer.bookmarks| - 1];
      0.0 <= b.x <= 1.0 && 0.0 <= b.y <= 1.0
  {
    var r := CanvasClick(v, clientX, clientY, rect, false);
    var b := r.viewer.bookmarks[|r.viewer.bookmarks| - 1];
    assert b.x * rect.width == clientX - rect.left;
    assert b.y * rect.height == clientY - rect.top;
  }

  /** `renderBookmarks`: the bookmarks drawn are those of the current
      page. */
  function PageBookmarks(v: Viewer): (r: seq<Bookmark>)
    ensures forall b :: b in r <==> b in v.bookmarks && b.pageNumber == v.currentPage
  {
    Filter(v.bookmarks, (b: Bookmark) => b.pageNumber == v.currentPage)
  }

  /** A marker clicked in shows at once, after the page's other
      bookmarks, and on no other page. */
  lemma {:induction false} MarkerShowsOnItsPage(v: Viewer, clientX: real, clientY: real, rect: Rect, n: int)
    requires rect.width > 0.0 && rect.height > 0.0 && v.isBookmarkMode
    requires n != v.currentPage
    ensures var w := CanvasClick(v, clientX, clientY, rect, false).viewer;
      && |PageBookmarks(w)| == |PageBookmarks(v)| + 1
      && PageBookmarks(w)[..|PageBookmarks(v)|] == PageBookmarks(v)
      && PageBookmarks(w.(currentPage := n)) == PageBookmarks(v.(currentPage := n))
  {
    var w := CanvasClick(v, clientX, clientY, rect, false).viewer;
    var b := w.bookmarks[|w.bookmarks| - 1];
    var here := (x: Bookmark) => x.pageNumber == v.currentPage;
    var there := (x: Bookmark) => x.pageNumber == n;
    FilterAppend(v.bookmarks, [b], here);
    FilterAppend(v.bookmarks, [b], there);
    assert Filter([b], here) == [b];
    assert Filter([b], there) == [];
    assert PageBookmarks(w.(currentPage := n)) == Filter(v.bookmarks, there) + Filter([b], there);
  }

  /** A bookmark row as the database returns it: the colour is "" when
      unset. */
  datatype BookmarkRow = BookmarkRow(id: int, pageNumber: int, x: real, y: real, color: string,
                                     signType: Option<(int, string)>)

  /** `loadBookmarks`: each saved bookmark, yellow unless it has a colour;
      none when the rows cannot be read. */
  function LoadBookmarks(v: Viewer, rows: Option<seq<BookmarkRow>>): (r: Viewer)
    ensures rows.None? ==> r.bookmarks == []
    ensures rows.Some? ==> |r.bookmarks| == |rows.value|
    ensures rows.Some? ==> forall k :: 0 <= k < |rows.value| ==>
      var b := r.bookmarks[k]; var row := rows.value[k];
      && b.id == Some(row.id) && b.pageNumber == row.pageNumber && (b.x, b.y) == (row.x, row.y)
      && b.color == (if row.color == "" then DefaultColor else row.color) && !b.temp
      && (row.signType.Some? <==> b.signType.Some?)
      && (row.signType.Some? ==> b.signType.value == row.signType.value.0
                                 && b.signTypeName == Some(row.signType.value.1))
    ensures r == v.(bookmarks := r.bookmarks)
  {
    match rows
    case None => v.(bookmarks := [])
    case Some(rs) => v.(bookmarks := seq(|rs|, k requires 0 <= k < |rs| => FromRow(rs[k])))
  }

  function FromRow(row: BookmarkRow): Bookmark {
    Bookmark(Some(row.id), row.pageNumber, row.x, row.y,
             if row.color == "" then DefaultColor else row.color,
             if row.signType.Some? then Some(row.signType.value.0) else None,
             if row.signType.Some? then Some(row.signType.value.1) else None,
             false)
  }

  /** Loaded bookmarks are all saved ones, so loading clears any marker
      clicked in but not yet saved. */
  lemma LoadingClearsMarkers(v: Viewer, rows: Option<seq<BookmarkRow>>)
    ensures forall b :: b in LoadBookmarks(v, rows).bookmarks ==> !b.temp && b.id.Some?
  {
  }
}
