/** The page arithmetic of the PDF export. The rendered preview is a canvas
    of w by h pixels; it is scaled to the content width of an A4 portrait
    page (210 by 297 mm, ISO 216) with a 5 mm margin. If the scaled image is
    taller than the content area, the canvas is cut into equal horizontal
    strips, one per page. Only the numbers handed to the PDF library are
    modelled: which part of the canvas each page shows, and where and how
    large it is drawn. */
module Pagination {

  const PdfWidth: real := 210.0
  const PdfHeight: real := 297.0
  const Margin: real := 5.0
  const ContentWidth: real := PdfWidth - 2.0 * Margin
  const ContentHeight: real := PdfHeight - 2.0 * Margin

  /** One page: the canvas rows [srcY, srcY + srcHeight) in pixels, drawn at
      (x, y) with size width by height in millimetres. */
  datatype PageImage = PageImage(srcY: real, srcHeight: real, x: real, y: real, width: real, height: real)

  /** `Math.min` */
  function Min(a: real, b: real): (m: real)
    ensures m <= a && m <= b
    ensures m == a || m == b
  {
    if a <= b then a else b
  }

  /** `Math.ceil`: the least integer not below x. */
  function Ceil(x: real): (n: int)
    ensures n as real - 1.0 < x <= n as real
  {
    var f := x.Floor;
    if f as real == x then f else f + 1
  }

  /** `canvas.width / canvas.height` */
  function AspectRatio(w: nat, h: nat): real
    requires h > 0
  {
    w as real / h as real
  }

  /** The height in millimetres of the whole canvas scaled to the content width. */
  function ImageHeight(w: nat, h: nat): (r: real)
    requires w > 0 && h > 0
    ensures r > 0.0
  {
    ContentWidth / AspectRatio(w, h)
  }

  /** The scaled height is the content width times the canvas's height-to-width
      ratio: imgHeight * w == contentWidth * h. */
  lemma ImageHeightProportional(w: nat, h: nat)
    requires w > 0 && h > 0
    ensures ImageHeight(w, h) * w as real == ContentWidth * h as real
  {
    var a := AspectRatio(w, h);
    DivCancel(w as real, h as real);
    DivCancel(ContentWidth, a);
    assert ImageHeight(w, h) * a == ContentWidth;
    assert ImageHeight(w, h) * a * h as real == ImageHeight(w, h) * w as real;
  }

  /** The scaled canvas fits on one page. */
  predicate FitsOnePage(w: nat, h: nat)
    requires w > 0 && h > 0
  {
    ImageHeight(w, h) <= ContentHeight
  }

  /** One page if the canvas fits, otherwise `Math.ceil(imgHeight / contentHeight)`. */
  function PageCount(w: nat, h: nat): (n: nat)
    requires w > 0 && h > 0
    ensures n >= 1
    ensures FitsOnePage(w, h) ==> n == 1
    ensures !FitsOnePage(w, h) ==> n >= 2
    ensures !FitsOnePage(w, h) ==>
      (n - 1) as real * ContentHeight < ImageHeight(w, h) <= n as real * ContentHeight
  {
    if FitsOnePage(w, h) then 1
    else
      var q := ImageHeight(w, h) / ContentHeight;
      var n := Ceil(q);
      assert q * ContentHeight == ImageHeight(w, h);
      assert q > 1.0;
      n
  }

  /** Page i of n when the canvas is split: the strip starts at i * h / n, is
      h / n high but never runs past the canvas, and is drawn
      `min(contentWidth / aspect / n, contentHeight)` high. */
  function Strip(w: nat, h: nat, n: nat, i: nat): (p: PageImage)
    requires w > 0 && h > 0 && n > 0
    ensures p.x == Margin && p.y == Margin && p.width == ContentWidth
    ensures 0.0 < p.height <= ContentHeight
  {
    var srcHeight := h as real / n as real;
    var srcY := i as real * srcHeight;
    DivPositive(ContentWidth, AspectRatio(w, h));
    DivPositive(ContentWidth / AspectRatio(w, h), n as real);
    PageImage(srcY, Min(srcHeight, h as real - srcY), Margin, Margin, ContentWidth,
              Min(ContentWidth / AspectRatio(w, h) / n as real, ContentHeight))
  }

  /** The single page of a canvas that fits: the whole canvas, drawn at its
      scaled size. */
  function WholePage(w: nat, h: nat): (p: PageImage)
    requires w > 0 && h > 0
    ensures Contiguous([p], h as real)
    ensures p.x == Margin && p.y == Margin && p.width == ContentWidth
    ensures StripScaled(p, w, h)
  {
    ImageHeightProportional(w, h);
    PageImage(0.0, h as real, Margin, Margin, ContentWidth, ImageHeight(w, h))
  }

  /** Strip i starts i shares of h / n rows down the canvas, and the first
      `Math.min` keeps it inside its share and inside the canvas. */
  lemma StripWithinCanvas(w: nat, h: nat, n: nat, i: nat)
    requires w > 0 && h > 0 && n > 0
    ensures Strip(w, h, n, i).srcY == i as real * (h as real / n as real)
    ensures Strip(w, h, n, i).srcHeight <= h as real / n as real
    ensures Strip(w, h, n, i).srcY + Strip(w, h, n, i).srcHeight <= h as real
  {
  }

  /** The pages of the document, in the order they are added. */
  function Layout(w: nat, h: nat): (pages: seq<PageImage>)
    requires w > 0 && h > 0
    ensures |pages| == PageCount(w, h)
  {
    if FitsOnePage(w, h) then [WholePage(w, h)]
    else
      var n := PageCount(w, h);
      seq(n, i requires 0 <= i < n => Strip(w, h, n, i))
  }

  // ---------------------------------------------------------------------
  // What a correct split looks like

  /** The strips start at the top, each begins where the previous one ended,
      and the last ends at the bottom of the canvas: no gap and no overlap. */
  ghost predicate Contiguous(pages: seq<PageImage>, h: real) {
    && |pages| >= 1
    && pages[0].srcY == 0.0
    && (forall i :: 0 <= i < |pages| - 1 ==> pages[i + 1].srcY == pages[i].srcY + pages[i].srcHeight)
    && pages[|pages| - 1].srcY + pages[|pages| - 1].srcHeight == h
  }

  /** Every page is drawn at the top-left corner of the content area at the
      full content width, and no page is drawn taller than the content area. */
  ghost predicate FitsContentArea(pages: seq<PageImage>) {
    forall i :: 0 <= i < |pages| ==>
      && pages[i].x == Margin && pages[i].y == Margin
      && pages[i].width == ContentWidth
      && 0.0 < pages[i].height <= ContentHeight
  }

  /** Every strip is converted from pixels to millimetres at the same rate,
      h / imgHeight pixels per millimetre, the rate of the whole image; so
      each strip keeps the canvas's proportions. */
  ghost predicate UniformScale(pages: seq<PageImage>, w: nat, h: nat)
    requires w > 0 && h > 0
  {
    forall i :: 0 <= i < |pages| ==> StripScaled(pages[i], w, h)
  }

  /** What the export promises of its pages: as many as needed, covering
      the canvas without gap or overlap, each fitting the content area, all
      at one scale. */
  ghost predicate WellSplit(pages: seq<PageImage>, w: nat, h: nat)
    requires w > 0 && h > 0
  {
    && |pages| == PageCount(w, h)
    && Contiguous(pages, h as real)
    && FitsContentArea(pages)
    && UniformScale(pages, w, h)
  }

  function SumOfHeights(pages: seq<PageImage>): real {
    if pages == [] then 0.0 else SumOfHeights(pages[..|pages| - 1]) + pages[|pages| - 1].srcHeight
  }

  // ---------------------------------------------------------------------
  // Properties of the split

  // Steps of real arithmetic that the solver does not take on its own.

  lemma DivCancel(a: real, b: real)
    requires b != 0.0
    ensures (a / b) * b == a
  {
  }

  lemma ScaleLe(a: real, b: real, c: real)
    requires a <= b && c >= 0.0
    ensures a * c <= b * c
  {
  }

  lemma UnscaleLe(a: real, b: real, c: real)
    requires c > 0.0 && a * c <= b * c
    ensures a <= b
  {
  }

  lemma DistribSub(a: real, b: real, c: real)
    ensures (a - b) * c == a * c - b * c
  {
  }

  /** Dividing a product by n is dividing either factor by n. */
  lemma DivOfProduct(a: real, b: real, n: real)
    requires n > 0.0
    ensures (a / n) * b == (a * b) / n
    ensures (b / n) * a == (a * b) / n
  {
    DivCancel(a, n);
    DivCancel(b, n);
    DivCancel(a * b, n);
  }

  /** A strip h / n high drawn img / n high is scaled like the whole image. */
  lemma StripScale(h: real, img: real, w: real, n: real)
    requires n > 0.0 && img * w == ContentWidth * h
    ensures (h / n) * img == (img / n) * h
    ensures (img / n) * w == (h / n) * ContentWidth
  {
    DivOfProduct(h, img, n);
    DivOfProduct(img, w, n);
    DivOfProduct(h, ContentWidth, n);
  }

  lemma DivPositive(a: real, b: real)
    requires a > 0.0 && b > 0.0
    ensures a / b > 0.0
  {
  }

  lemma StrictScaleLt(a: real, b: real, c: real, x: real, y: real)
    requires a < b && c > 0.0 && x == a * c && y == b * c
    ensures x < y
  {
  }

  /** With n pages for an image at most n content heights tall, both `min`s
      of a strip are redundant: it is exactly h / n pixels high and is drawn
      exactly imgHeight / n millimetres high. */
  lemma StripExact(w: nat, h: nat, n: nat, i: nat)
    requires w > 0 && h > 0 && n > 0 && i < n
    requires ImageHeight(w, h) <= n as real * ContentHeight
    ensures Strip(w, h, n, i).srcY == i as real * (h as real / n as real)
    ensures Strip(w, h, n, i).srcHeight == h as real / n as real
    ensures Strip(w, h, n, i).height == ImageHeight(w, h) / n as real
  {
    var s := h as real / n as real;
    DivCancel(h as real, n as real);
    DistribSub(n as real, i as real, s);
    ScaleLe(1.0, (n - i) as real, s);
    assert s <= h as real - i as real * s;
    var img := ImageHeight(w, h);
    var q := img / n as real;
    DivCancel(img, n as real);
    UnscaleLe(q, ContentHeight, n as real);
    assert ContentWidth / AspectRatio(w, h) == img;
  }

  /** Strip i of a split page: the exact values, for every page of the layout. */
  lemma LayoutStrip(w: nat, h: nat, i: nat)
    requires w > 0 && h > 0 && !FitsOnePage(w, h) && i < PageCount(w, h)
    ensures Layout(w, h)[i] == Strip(w, h, PageCount(w, h), i)
    ensures Layout(w, h)[i].srcY == i as real * (h as real / PageCount(w, h) as real)
    ensures Layout(w, h)[i].srcHeight == h as real / PageCount(w, h) as real
    ensures Layout(w, h)[i].height == ImageHeight(w, h) / PageCount(w, h) as real
  {
    StripExact(w, h, PageCount(w, h), i);
  }

  /** Strips of equal height s, the i-th starting at i * s, that together
      make up h are contiguous. */
  lemma EqualStripsContiguous(pages: seq<PageImage>, s: real, h: real)
    requires |pages| >= 1
    requires forall i :: 0 <= i < |pages| ==> pages[i].srcY == i as real * s && pages[i].srcHeight == s
    requires |pages| as real * s == h
    ensures Contiguous(pages, h)
  {
    var last := |pages| - 1;
    assert pages[last].srcY + pages[last].srcHeight == (last + 1) as real * s;
  }

  lemma LayoutContiguous(w: nat, h: nat)
    requires w > 0 && h > 0
    ensures Contiguous(Layout(w, h), h as real)
  {
    var pages := Layout(w, h);
    if !FitsOnePage(w, h) {
      var n := PageCount(w, h);
      var s := h as real / n as real;
      forall i | 0 <= i < n
        ensures pages[i].srcY == i as real * s && pages[i].srcHeight == s
      {
        LayoutStrip(w, h, i);
      }
      DivCancel(h as real, n as real);
      EqualStripsContiguous(pages, s, h as real);
    }
  }

  lemma LayoutFits(w: nat, h: nat)
    requires w > 0 && h > 0
    ensures FitsContentArea(Layout(w, h))
  {
    var pages := Layout(w, h);
    if !FitsOnePage(w, h) {
      var n := PageCount(w, h);
      forall i | 0 <= i < n
        ensures 0.0 < pages[i].height <= ContentHeight
      {
        assert pages[i] == Strip(w, h, n, i);
      }
    }
  }

  lemma LayoutUniformScale(w: nat, h: nat)
    requires w > 0 && h > 0
    ensures UniformScale(Layout(w, h), w, h)
  {
    ImageHeightProportional(w, h);
    if !FitsOnePage(w, h) {
      forall i | 0 <= i < PageCount(w, h)
        ensures StripScaled(Layout(w, h)[i], w, h)
      {
        StripScaledAt(w, h, i);
      }
    }
  }

  ghost predicate StripScaled(p: PageImage, w: nat, h: nat)
    requires w > 0 && h > 0
  {
    && p.srcHeight * ImageHeight(w, h) == p.height * h as real
    && p.height * w as real == p.srcHeight * p.width
  }

  lemma StripScaledAt(w: nat, h: nat, i: nat)
    requires w > 0 && h > 0 && !FitsOnePage(w, h) && i < PageCount(w, h)
    ensures StripScaled(Layout(w, h)[i], w, h)
  {
    var p, n, img := Layout(w, h)[i], PageCount(w, h), ImageHeight(w, h);
    ImageHeightProportional(w, h);
    LayoutStrip(w, h, i);
    assert p.srcHeight == h as real / n as real && p.height == img / n as real && p.width == ContentWidth;
    StripScale(h as real, img, w as real, n as real);
  }

  /** The strips start at strictly increasing rows of the canvas. */
  lemma StripsIncreasing(w: nat, h: nat, n: nat, i: nat, j: nat)
    requires w > 0 && h > 0 && n > 0 && i < j
    ensures Strip(w, h, n, i).srcY < Strip(w, h, n, j).srcY
  {
    var s := h as real / n as real;
    StripWithinCanvas(w, h, n, i);
    StripWithinCanvas(w, h, n, j);
    DivPositive(h as real, n as real);
    StrictScaleLt(i as real, j as real, s, Strip(w, h, n, i).srcY, Strip(w, h, n, j).srcY);
  }

  lemma LayoutIncreasing(w: nat, h: nat, i: nat, j: nat)
    requires w > 0 && h > 0 && i < j < |Layout(w, h)|
    ensures Layout(w, h)[i].srcY < Layout(w, h)[j].srcY
  {
    var n := PageCount(w, h);
    assert !FitsOnePage(w, h);
    assert Layout(w, h)[i] == Strip(w, h, n, i);
    assert Layout(w, h)[j] == Strip(w, h, n, j);
    StripsIncreasing(w, h, n, i, j);
  }

  lemma {:induction false} ContiguousPrefixSum(pages: seq<PageImage>, k: nat)
    requires |pages| >= 1 && pages[0].srcY == 0.0
    requires forall i :: 0 <= i < |pages| - 1 ==> pages[i + 1].srcY == pages[i].srcY + pages[i].srcHeight
    requires 1 <= k <= |pages|
    ensures SumOfHeights(pages[..k]) == pages[k - 1].srcY + pages[k - 1].srcHeight
  {
    if k > 1 {
      ContiguousPrefixSum(pages, k - 1);
      assert pages[..k][..k - 1] == pages[..k - 1];
    } else {
      assert pages[..1][..0] == [];
    }
  }

  /** The strip heights add up to the canvas height. */
  lemma LayoutCoversCanvas(w: nat, h: nat)
    requires w > 0 && h > 0
    ensures SumOfHeights(Layout(w, h)) == h as real
  {
    var pages := Layout(w, h);
    LayoutContiguous(w, h);
    ContiguousPrefixSum(pages, |pages|);
    assert pages[..|pages|] == pages;
  }

  /** Fewer pages would not hold the image at the content height: the page
      count is the least that suffices. */
  lemma PageCountLeast(w: nat, h: nat, m: nat)
    requires w > 0 && h > 0
    requires ImageHeight(w, h) <= m as real * ContentHeight
    ensures PageCount(w, h) <= m
  {
    if !FitsOnePage(w, h) && PageCount(w, h) > m {
      ScaleLe(m as real, (PageCount(w, h) - 1) as real, ContentHeight);
    }
  }

  lemma LayoutWellSplit(w: nat, h: nat)
    requires w > 0 && h > 0
    ensures WellSplit(Layout(w, h), w, h)
  {
    LayoutContiguous(w, h);
    LayoutFits(w, h);
    LayoutUniformScale(w, h);
  }

  // ---------------------------------------------------------------------
  // The loop of the export handler

  /** The page the loop builds in round i is `Strip(w, h, n, i)`. */
  lemma StripUnfolds(w: nat, h: nat, n: nat, i: nat)
    requires w > 0 && h > 0 && n > 0
    ensures var srcY := i as real * (h as real / n as real);
            Strip(w, h, n, i)
            == PageImage(srcY, Min(h as real / n as real, h as real - srcY), Margin, Margin, ContentWidth,
                         Min(ContentWidth / (w as real / h as real) / n as real, ContentHeight))
  {
  }

  method Paginate(w: nat, h: nat) returns (pages: seq<PageImage>)
    requires w > 0 && h > 0
    ensures pages == Layout(w, h)
    ensures WellSplit(pages, w, h)
  {
    var aspect := w as real / h as real;
    var imgWidth := ContentWidth;
    var imgHeight := ContentWidth / aspect;
    assert imgHeight == ImageHeight(w, h);
    if imgHeight > ContentHeight {
      var pageCount := Ceil(imgHeight / ContentHeight);
      assert pageCount == PageCount(w, h);
      pages := [];
      var i := 0;
      while i < pageCount
        invariant 0 <= i <= pageCount
        invariant |pages| == i
        invariant forall k :: 0 <= k < i ==> pages[k] == Strip(w, h, pageCount, k)
      {
        var srcHeight := h as real / pageCount as real;
        var srcY := i as real * srcHeight;
        var sliceHeight := Min(srcHeight, h as real - srcY);
        var pageImgHeight := ContentWidth / aspect / pageCount as real;
        var page := PageImage(srcY, sliceHeight, Margin, Margin, ContentWidth, Min(pageImgHeight, ContentHeight));
        StripUnfolds(w, h, pageCount, i);
        pages := pages + [page];
        i := i + 1;
      }
    } else {
      pages := [PageImage(0.0, h as real, Margin, Margin, imgWidth, imgHeight)];
    }
    assert pages == Layout(w, h);
    LayoutWellSplit(w, h);
  }

  /** A 1000 by 3000 pixel canvas is 600 mm tall at the content width and
      goes onto three pages of 1000 pixel rows each. */
  lemma ExampleThreePages()
    ensures ImageHeight(1000, 3000) == 600.0
    ensures PageCount(1000, 3000) == 3
    ensures forall i :: 0 <= i < 3 ==> Layout(1000, 3000)[i].srcY == 1000.0 * i as real
    ensures forall i :: 0 <= i < 3 ==> Layout(1000, 3000)[i].srcHeight == 1000.0
  {
    var q := 600.0 / ContentHeight;
    assert 2.0 < q < 3.0 by { assert q * ContentHeight == 600.0; }
    assert q.Floor == 2;
    assert PageCount(1000, 3000) == 3;
    forall i | 0 <= i < 3
      ensures Layout(1000, 3000)[i].srcY == 1000.0 * i as real
      ensures Layout(1000, 3000)[i].srcHeight == 1000.0
    {
      LayoutStrip(1000, 3000, i);
    }
  }
}
