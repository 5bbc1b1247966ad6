/** The page templates and the layout half of `generate_pdf_bytes`: the two content
    frames, the header and footer art each template draws, which template each page
    uses, and how geometry, templates and story are put together. Flowing the story
    into the frames (pagination) and drawing are ReportLab's and are not modelled;
    a document's page count is a parameter. */
module Document {
  import opened Geometry
  import opened Text
  import Story

  datatype TemplateId = First | Later

  /** A content frame by its lower-left corner, width and height (all paddings zero). */
  datatype Frame = Frame(x: real, y: real, width: real, height: real)

  /** An image painted by a template's page routine, by lower-left corner and size. */
  datatype Decoration =
    | HeaderArt(x: real, y: real, width: real, height: real)
    | FooterArt(x: real, y: real, width: real, height: real)

  datatype PageTemplate = PageTemplate(id: TemplateId, frame: Frame, onPage: seq<Decoration>)

  /** `frame_first` and `frame_later`: both sit on the bottom reservation inside the
      side margins; only their heights differ. */
  function FrameFor(g: PageGeometry, id: TemplateId): Frame {
    Frame(MARGIN_PT, g.bottomReserved, g.usableWidth, if id == First then g.firstHeight else g.laterHeight)
  }

  /** `draw_footer`: the footer across the full page width, 0.5 cm above the bottom. */
  function FooterDrawn(g: PageGeometry): Decoration {
    FooterArt(0.0, BOTTOM_OFFSET_PT, g.pageWidth, g.footerHeight)
  }

  /** `draw_header_first_page`: the header across the usable width, right below the top margin. */
  function HeaderDrawn(g: PageGeometry): Decoration {
    HeaderArt(MARGIN_PT, g.pageHeight - g.headerHeight - MARGIN_PT, g.usableWidth, g.headerHeight)
  }

  /** `on_first_page` paints header and footer, `on_later_pages` the footer only. */
  function OnPage(g: PageGeometry, id: TemplateId): seq<Decoration> {
    if id == First then [HeaderDrawn(g), FooterDrawn(g)] else [FooterDrawn(g)]
  }

  /** The templates in the order they are added: "First", then "Later", each with
      its own frame and page routine. */
  function Templates(g: PageGeometry): (ts: seq<PageTemplate>)
    ensures |ts| == 2 && ts[0].id == First && ts[1].id == Later
    ensures forall t :: t in ts ==> t.frame == FrameFor(g, t.id) && t.onPage == OnPage(g, t.id)
  {
    [PageTemplate(First, FrameFor(g, First), OnPage(g, First)),
     PageTemplate(Later, FrameFor(g, Later), OnPage(g, Later))]
  }

  /** Both frames end `RESERVED_GAP_ABOVE_FOOTER_PT` above the top of the footer art
      and span exactly the page between the side margins. */
  lemma FramesClearFooter(footerHeight: real, headerHeight: real, id: TemplateId)
    ensures var g := FromHeights(footerHeight, headerHeight);
      var fr := FrameFor(g, id);
      && fr.y - (FooterDrawn(g).y + FooterDrawn(g).height) == RESERVED_GAP_ABOVE_FOOTER_PT
      && fr.x == MARGIN_PT && fr.x + fr.width == g.pageWidth - MARGIN_PT
  {
  }

  /** The first frame's top meets the bottom of the header art exactly when its span
      is at least 100 points; when the floor applies it reaches into the header.
      Likewise the continuation frame's top is the top margin unless floored. */
  lemma FrameTops(footerHeight: real, headerHeight: real)
    ensures var g := FromHeights(footerHeight, headerHeight);
      var first := FrameFor(g, First);
      var later := FrameFor(g, Later);
      && first.y + first.height >= HeaderDrawn(g).y
      && (first.y + first.height == HeaderDrawn(g).y <==> g.firstTop - g.bottomReserved >= MIN_FRAME_HEIGHT)
      && later.y + later.height >= g.pageHeight - MARGIN_PT
      && (later.y + later.height == g.pageHeight - MARGIN_PT <==> g.laterTop - g.bottomReserved >= MIN_FRAME_HEIGHT)
  {
  }

  // ---------------------------------------------------------------------------
  // Which template each page uses

  /** The template of page `page` (0-based) as the service sets the document up: a
      BaseDocTemplate starts on the first template of its list and keeps the current
      one from page to page unless a NextPageTemplate flowable or the template's
      `autoNextPageTemplate` says otherwise, and the service sets neither. */
  function TemplateForPageAsWritten(page: nat): TemplateId {
    First
  }

  /** The evident intent: "First" for page one, "Later" for every page after it. */
  function TemplateForPage(page: nat): TemplateId {
    if page == 0 then First else Later
  }

  function PagesAsWritten(n: nat): (ids: seq<TemplateId>)
    ensures |ids| == n
  {
    seq(n, i requires 0 <= i < n => TemplateForPageAsWritten(i))
  }

  function Pages(n: nat): (ids: seq<TemplateId>)
    ensures |ids| == n
  {
    seq(n, i requires 0 <= i < n => TemplateForPage(i))
  }

  /** Every decoration painted over a document whose pages use `ids`, page by page. */
  function DrawLog(g: PageGeometry, ids: seq<TemplateId>): seq<Decoration> {
    if ids == [] then [] else DrawLog(g, ids[..|ids| - 1]) + OnPage(g, ids[|ids| - 1])
  }

  function HeaderCount(log: seq<Decoration>): nat {
    if log == [] then 0 else (if log[0].HeaderArt? then 1 else 0) + HeaderCount(log[1..])
  }

  function FooterCount(log: seq<Decoration>): nat {
    if log == [] then 0 else (if log[0].FooterArt? then 1 else 0) + FooterCount(log[1..])
  }

  function FirstCount(ids: seq<TemplateId>): nat {
    if ids == [] then 0 else FirstCount(ids[..|ids| - 1]) + (if ids[|ids| - 1] == First then 1 else 0)
  }

  lemma {:induction false} CountsAdd(a: seq<Decoration>, b: seq<Decoration>)
    ensures HeaderCount(a + b) == HeaderCount(a) + HeaderCount(b)
    ensures FooterCount(a + b) == FooterCount(a) + FooterCount(b)
  {
    if a != [] {
      assert (a + b)[1..] == a[1..] + b;
      CountsAdd(a[1..], b);
    } else {
      assert a + b == b;
    }
  }

  /** Each page paints the footer once, and the header once if it uses "First". */
  lemma {:induction false} DrawCounts(g: PageGeometry, ids: seq<TemplateId>)
    ensures HeaderCount(DrawLog(g, ids)) == FirstCount(ids)
    ensures FooterCount(DrawLog(g, ids)) == |ids|
  {
    if ids != [] {
      var init := ids[..|ids| - 1];
      DrawCounts(g, init);
      CountsAdd(DrawLog(g, init), OnPage(g, ids[|ids| - 1]));
      OnPageCounts(g, ids[|ids| - 1]);
    }
  }

  lemma OnPageCounts(g: PageGeometry, id: TemplateId)
    ensures HeaderCount(OnPage(g, id)) == (if id == First then 1 else 0)
    ensures FooterCount(OnPage(g, id)) == 1
  {
    var footerOnly := [FooterDrawn(g)];
    assert footerOnly[1..] == [];
    assert HeaderCount(footerOnly) == 0 && FooterCount(footerOnly) == 1;
    if id == First {
      assert OnPage(g, id)[1..] == footerOnly;
    }
  }

  lemma {:induction false} FirstOnlyOnce(n: nat)
    requires n >= 1
    ensures FirstCount(Pages(n)) == 1
  {
    if n > 1 {
      assert Pages(n)[..n - 1] == Pages(n - 1);
      FirstOnlyOnce(n - 1);
    } else {
      assert Pages(n)[..0] == [];
    }
  }

  lemma {:induction false} FirstEverywhereAsWritten(n: nat)
    ensures FirstCount(PagesAsWritten(n)) == n
  {
    if n > 0 {
      assert PagesAsWritten(n)[..n - 1] == PagesAsWritten(n - 1);
      FirstEverywhereAsWritten(n - 1);
    }
  }

  /** With the intended page rule, "First" is used for page one and never again, every
      later page uses "Later" and the taller continuation frame, the header is painted
      exactly once and the footer once per page. */
  lemma HeaderOnlyOnFirstPage(g: PageGeometry, n: nat)
    requires n >= 1
    ensures Pages(n)[0] == First && forall i :: 1 <= i < n ==> Pages(n)[i] == Later
    ensures forall i :: 1 <= i < n ==> FrameFor(g, Pages(n)[i]).height == g.laterHeight
    ensures HeaderCount(DrawLog(g, Pages(n))) == 1
    ensures FooterCount(DrawLog(g, Pages(n))) == n
  {
    DrawCounts(g, Pages(n));
    FirstOnlyOnce(n);
  }

  /** As the service is written, every page uses "First": the header is painted on
      every page and continuation pages get the shorter first-page frame. */
  lemma HeaderOnEveryPageAsWritten(g: PageGeometry, n: nat)
    ensures HeaderCount(DrawLog(g, PagesAsWritten(n))) == n
    ensures FooterCount(DrawLog(g, PagesAsWritten(n))) == n
    ensures forall i :: 0 <= i < n ==> FrameFor(g, PagesAsWritten(n)[i]).height == g.firstHeight
  {
    DrawCounts(g, PagesAsWritten(n));
    FirstEverywhereAsWritten(n);
  }

  /** The discrepancy on a two-page quote with a real header: the as-written rule
      paints the header twice and gives page two a frame shorter by the header's
      height, where the intended rule paints it once. */
  lemma SecondPageDiffersAsWritten(footer: PixelSize, header: PixelSize)
    requires header.width > 0 && header.height > 0
    requires ComputeGeometry(footer, header).laterTop - ComputeGeometry(footer, header).bottomReserved
             >= MIN_FRAME_HEIGHT + ComputeGeometry(footer, header).headerHeight
    ensures var g := ComputeGeometry(footer, header);
      && HeaderCount(DrawLog(g, PagesAsWritten(2))) == 2
      && HeaderCount(DrawLog(g, Pages(2))) == 1
      && FrameFor(g, PagesAsWritten(2)[1]).height == FrameFor(g, Pages(2)[1]).height - g.headerHeight
      && FrameFor(g, PagesAsWritten(2)[1]).height < FrameFor(g, Pages(2)[1]).height
  {
    var g := ComputeGeometry(footer, header);
    HeaderOnEveryPageAsWritten(g, 2);
    HeaderOnlyOnFirstPage(g, 2);
    ReservedBands(g.footerHeight, g.headerHeight);
  }

  // ---------------------------------------------------------------------------
  // Putting the layout together

  datatype Layout = Layout(geometry: PageGeometry, templates: seq<PageTemplate>, story: seq<Story.Block>)

  /** `generate_pdf_bytes` up to `doc.build`: the geometry from the footer and header
      pixel sizes, the two templates, and the story with the photo capped by the first
      page's usable height. */
  method GenerateLayout(data: Story.Record, photo: Option<string>, photoExists: bool,
                        footer: PixelSize, header: PixelSize)
    returns (layout: Layout)
    ensures layout.geometry == ComputeGeometry(footer, header)
    ensures layout.templates == Templates(layout.geometry)
    ensures layout.story == Story.StorySpec(data, photo, photoExists, layout.geometry.firstHeight)
    ensures forall i :: 0 <= i < |layout.story| && layout.story[i].Image? ==>
      && layout.story[i].maxHeight == Story.MAX_VEHICLE_RATIO * layout.geometry.firstHeight
      && Story.MAX_VEHICLE_RATIO * MIN_FRAME_HEIGHT <= layout.story[i].maxHeight
      && layout.story[i].maxHeight <= Story.MAX_VEHICLE_RATIO * layout.geometry.laterHeight
  {
    var g := ComputeGeometry(footer, header);
    var story := Story.BuildStory(data, photo, photoExists, g.firstHeight);
    Story.PhotoOnlyWhenPresent(data, photo, photoExists, g.firstHeight);
    layout := Layout(g, Templates(g), story);
  }
}
