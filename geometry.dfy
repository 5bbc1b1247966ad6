/** The geometry calculator of `generate_pdf_bytes`: how tall the header and footer
    art is once scaled to the page, how much of the page bottom the footer reserves,
    and how tall the content frame is on the first page and on continuation pages.
    All lengths are PDF points, computed exactly over `real`; image pixel sizes, which
    the service reads from the image files, are parameters. */
module Geometry {

  /** One centimetre in points (72 points per inch, 2.54 cm per inch). */
  const CM: real := 72.0 / 2.54
  /** A4 as ReportLab defines it: 21 cm by 29.7 cm. */
  const PAGE_WIDTH: real := 21.0 * CM
  const PAGE_HEIGHT: real := 29.7 * CM
  /** About 15 mm, on all four sides. */
  const MARGIN_PT: real := 42.52
  /** The footer art is drawn 0.5 cm above the page bottom. */
  const BOTTOM_OFFSET_PT: real := 0.5 * CM
  const RESERVED_GAP_ABOVE_FOOTER_PT: real := 10.0
  /** The floor under both content-frame heights. */
  const MIN_FRAME_HEIGHT: real := 100.0

  datatype PixelSize = PixelSize(width: int, height: int)

  /** `scaled_height_for_full_width`: the height of an image of `wpx` by `hpx` pixels
      once drawn `targetWidth` points wide with its aspect ratio kept; a degenerate
      image (a side of zero or fewer pixels) gets height 0 rather than an error. */
  function ScaledHeight(wpx: int, hpx: int, targetWidth: real): (h: real)
    ensures wpx <= 0 || hpx <= 0 ==> h == 0.0
    ensures wpx > 0 && hpx > 0 ==> h * (wpx as real) == (hpx as real) * targetWidth
    ensures wpx > 0 && hpx > 0 && targetWidth > 0.0 ==> h > 0.0
    ensures targetWidth >= 0.0 ==> h >= 0.0
  {
    if wpx <= 0 || hpx <= 0 then 0.0 else (hpx as real) * (targetWidth / (wpx as real))
  }

  /** The aspect ratio is kept: height over width in points equals height over width
      in pixels, and a wider target gives a proportionally taller image. */
  lemma ScaledHeightKeepsAspect(wpx: int, hpx: int, targetWidth: real, k: real)
    requires wpx > 0 && hpx > 0 && targetWidth > 0.0 && k > 0.0
    ensures ScaledHeight(wpx, hpx, targetWidth) / targetWidth == (hpx as real) / (wpx as real)
    ensures ScaledHeight(wpx, hpx, k * targetWidth) == k * ScaledHeight(wpx, hpx, targetWidth)
  {
    var h := ScaledHeight(wpx, hpx, targetWidth);
    var w := wpx as real;
    assert h * w == (hpx as real) * targetWidth;
    calc {
      h / targetWidth;
      (h * w) / (targetWidth * w);
      ((hpx as real) * targetWidth) / (targetWidth * w);
      (hpx as real) / w;
    }
    var h2 := ScaledHeight(wpx, hpx, k * targetWidth);
    assert h2 * w == (hpx as real) * (k * targetWidth);
    assert (k * h) * w == k * (h * w);
  }

  /** `max(span, 100)`: the usable frame height is never below the floor. */
  function FloorAtMin(span: real): (h: real)
    ensures h >= MIN_FRAME_HEIGHT
    ensures span >= MIN_FRAME_HEIGHT ==> h == span
    ensures span < MIN_FRAME_HEIGHT ==> h == MIN_FRAME_HEIGHT
  {
    if span >= MIN_FRAME_HEIGHT then span else MIN_FRAME_HEIGHT
  }

  datatype PageGeometry = PageGeometry(
    pageWidth: real,
    pageHeight: real,
    footerHeight: real,
    headerHeight: real,
    bottomReserved: real,
    usableWidth: real,
    firstTop: real,
    laterTop: real,
    firstHeight: real,
    laterHeight: real)

  /** The page width minus both margins: the width of the content frame and of the header. */
  const USABLE_WIDTH: real := PAGE_WIDTH - 2.0 * MARGIN_PT

  /** The geometry formulas given the scaled footer and header heights. */
  function FromHeights(footerHeight: real, headerHeight: real): (g: PageGeometry)
    ensures g.pageWidth == PAGE_WIDTH && g.pageHeight == PAGE_HEIGHT
    ensures g.footerHeight == footerHeight && g.headerHeight == headerHeight
    ensures g.firstHeight >= MIN_FRAME_HEIGHT && g.laterHeight >= MIN_FRAME_HEIGHT
  {
    var bottomReserved := BOTTOM_OFFSET_PT + footerHeight + RESERVED_GAP_ABOVE_FOOTER_PT;
    var firstTop := PAGE_HEIGHT - MARGIN_PT - headerHeight;
    var laterTop := PAGE_HEIGHT - MARGIN_PT;
    PageGeometry(PAGE_WIDTH, PAGE_HEIGHT, footerHeight, headerHeight, bottomReserved, USABLE_WIDTH,
                 firstTop, laterTop, FloorAtMin(firstTop - bottomReserved), FloorAtMin(laterTop - bottomReserved))
  }

  /** The geometry of `generate_pdf_bytes` from the pixel sizes of the footer and
      header art: the footer is scaled to the full page width, the header to the
      usable width. */
  function ComputeGeometry(footer: PixelSize, header: PixelSize): (g: PageGeometry)
    ensures g.footerHeight >= 0.0 && g.headerHeight >= 0.0
    ensures g.headerHeight == 0.0 <==> header.width <= 0 || header.height <= 0
    ensures g.footerHeight == 0.0 <==> footer.width <= 0 || footer.height <= 0
    ensures g.firstHeight >= MIN_FRAME_HEIGHT && g.laterHeight >= MIN_FRAME_HEIGHT
    ensures g.firstHeight <= g.laterHeight
  {
    var g := FromHeights(ScaledHeight(footer.width, footer.height, PAGE_WIDTH),
                         ScaledHeight(header.width, header.height, USABLE_WIDTH));
    FirstNotTaller(g.footerHeight, g.headerHeight);
    g
  }

  /** The bottom reservation is the footer offset, the footer and the gap above it;
      the usable width is the page width less two margins; the two tops differ by
      exactly the header height. */
  lemma ReservedBands(footerHeight: real, headerHeight: real)
    ensures var g := FromHeights(footerHeight, headerHeight);
      && g.bottomReserved == BOTTOM_OFFSET_PT + footerHeight + RESERVED_GAP_ABOVE_FOOTER_PT
      && g.usableWidth == g.pageWidth - 2.0 * MARGIN_PT
      && g.usableWidth > 0.0
      && g.laterTop == g.pageHeight - MARGIN_PT
      && g.laterTop - g.firstTop == headerHeight
  {
  }

  /** Each usable height is its top less the bottom reservation whenever that is at
      least 100 points, and exactly 100 otherwise. */
  lemma UsableHeightsExact(footerHeight: real, headerHeight: real)
    ensures var g := FromHeights(footerHeight, headerHeight);
      && (g.firstTop - g.bottomReserved >= MIN_FRAME_HEIGHT ==> g.firstHeight == g.firstTop - g.bottomReserved)
      && (g.firstTop - g.bottomReserved < MIN_FRAME_HEIGHT ==> g.firstHeight == MIN_FRAME_HEIGHT)
      && (g.laterTop - g.bottomReserved >= MIN_FRAME_HEIGHT ==> g.laterHeight == g.laterTop - g.bottomReserved)
      && (g.laterTop - g.bottomReserved < MIN_FRAME_HEIGHT ==> g.laterHeight == MIN_FRAME_HEIGHT)
  {
  }

  /** A header of non-negative height never makes the first page's frame taller than
      a continuation page's; with no header the two are equal. */
  lemma FirstNotTaller(footerHeight: real, headerHeight: real)
    requires headerHeight >= 0.0
    ensures FromHeights(footerHeight, headerHeight).firstHeight <= FromHeights(footerHeight, headerHeight).laterHeight
    ensures headerHeight == 0.0 ==> FromHeights(footerHeight, headerHeight).firstHeight == FromHeights(footerHeight, headerHeight).laterHeight
  {
  }

  /** The first page's frame is strictly shorter exactly when there is a header and
      the continuation frame is not itself clamped to the floor: once both spans are
      below 100 points both frames are 100 points tall. */
  lemma FirstStrictlyShorter(footerHeight: real, headerHeight: real)
    requires headerHeight >= 0.0
    ensures var g := FromHeights(footerHeight, headerHeight);
      g.firstHeight < g.laterHeight <==> headerHeight > 0.0 && g.laterTop - g.bottomReserved > MIN_FRAME_HEIGHT
  {
  }
}
