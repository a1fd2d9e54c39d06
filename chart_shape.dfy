/**
 * ChartShape (chartshape/ChartShape.cpp): the chart's lookup tables (the
 * ODF chart classes, the default subtypes and the default data-set
 * palette), the helpers its ODF loader and saver are built from (chart-class
 * lookup, font-weight text, `xlink:href` resolution of an embedded chart
 * document, the label and data-table writers) and the visibility state of
 * its title, subtitle and footer.
 */
module ChartShapeOdf {
  import opened Base
  import opened Xml
  import opened ChartTable
  import Proxy

  // ---------------------------------------------------------------
  // Chart types and their tables.

  datatype ChartType =
    | BarChartType | LineChartType | AreaChartType | CircleChartType
    | RingChartType | ScatterChartType | RadarChartType | StockChartType
    | BubbleChartType | SurfaceChartType | GanttChartType

  datatype ChartSubtype = NoChartSubtype | NormalChartSubtype | StackedChartSubtype | PercentChartSubtype

  /** `NUM_CHARTTYPES`, which is also `LastChartType`. */
  const NUM_CHARTTYPES: nat := 11

  /** The chart types in enum order: `ChartTypes[i]` is the type with value `i`. */
  const ChartTypes: seq<ChartType> := [
    BarChartType, LineChartType, AreaChartType, CircleChartType,
    RingChartType, ScatterChartType, RadarChartType, StockChartType,
    BubbleChartType, SurfaceChartType, GanttChartType]

  /** `ODF_CHARTTYPES`: the `chart:class` of each chart type, in enum order. */
  const ODF_CHARTTYPES: seq<string> := [
    "chart:bar", "chart:line", "chart:area", "chart:circle",
    "chart:ring", "chart:scatter", "chart:radar", "chart:stock",
    "chart:bubble", "chart:surface", "chart:gantt"]

  /** `defaultSubtypes`, in enum order. */
  const DefaultSubtypes: seq<ChartSubtype> := [
    NormalChartSubtype, NormalChartSubtype, NormalChartSubtype, NoChartSubtype,
    NoChartSubtype, NoChartSubtype, NormalChartSubtype, NoChartSubtype,
    NoChartSubtype, NoChartSubtype, NoChartSubtype]

  /** The enum value of a chart type, the inverse of indexing `ChartTypes`. */
  function TypeIndex(t: ChartType): (i: nat)
    ensures i < NUM_CHARTTYPES && i < |ChartTypes| && ChartTypes[i] == t
  {
    match t
    case BarChartType => 0
    case LineChartType => 1
    case AreaChartType => 2
    case CircleChartType => 3
    case RingChartType => 4
    case ScatterChartType => 5
    case RadarChartType => 6
    case StockChartType => 7
    case BubbleChartType => 8
    case SurfaceChartType => 9
    case GanttChartType => 10
  }

  /** `ODF_CHARTTYPES[t]`. */
  function OdfClass(t: ChartType): string {
    ODF_CHARTTYPES[TypeIndex(t)]
  }

  /** `defaultSubtypes[t]`. */
  function DefaultSubtype(t: ChartType): ChartSubtype {
    DefaultSubtypes[TypeIndex(t)]
  }

  /** The chart-class strings are pairwise distinct, so a saved class names one chart type. */
  lemma OdfClassesDistinct()
    ensures |ODF_CHARTTYPES| == |ChartTypes| == NUM_CHARTTYPES
    ensures forall i, j :: 0 <= i < j < NUM_CHARTTYPES ==> ODF_CHARTTYPES[i] != ODF_CHARTTYPES[j]
  {
  }

  lemma OdfClassInjective(s: ChartType, t: ChartType)
    ensures OdfClass(s) == OdfClass(t) ==> s == t
  {
    OdfClassesDistinct();
    if s != t {
      var i, j := TypeIndex(s), TypeIndex(t);
      if i < j {
        assert ODF_CHARTTYPES[i] != ODF_CHARTTYPES[j];
      } else {
        assert ODF_CHARTTYPES[j] != ODF_CHARTTYPES[i];
      }
    }
  }

  /** Bar, line, area and radar charts default to the normal subtype; all others have none. */
  lemma DefaultSubtypeMeaning(t: ChartType)
    ensures DefaultSubtype(t) == NormalChartSubtype <==>
      t == BarChartType || t == LineChartType || t == AreaChartType || t == RadarChartType
    ensures DefaultSubtype(t) != NormalChartSubtype ==> DefaultSubtype(t) == NoChartSubtype
  {
  }

  // ---------------------------------------------------------------
  // Loading the chart class.

  const CHART_CLASS: QName := QName(ChartNS, "class")

  /**
   * The search loop of `loadOdfChartElement`: the first chart type whose
   * class string equals `chartClass`; `knownType` is false, and the type
   * stays at its initial bar chart, when there is none.
   */
  method FindChartType(chartClass: string) returns (knownType: bool, chartType: ChartType)
    ensures knownType <==> chartClass in ODF_CHARTTYPES
    ensures knownType ==> OdfClass(chartType) == chartClass
    ensures !knownType ==> chartType == BarChartType
    ensures forall t :: OdfClass(t) == chartClass ==> knownType && chartType == t
  {
    chartType := BarChartType;
    knownType := false;
    var i := 0;
    while i < NUM_CHARTTYPES
      invariant 0 <= i <= NUM_CHARTTYPES
      invariant chartClass !in ODF_CHARTTYPES[..i]
    {
      if chartClass == ODF_CHARTTYPES[i] {
        chartType := ChartTypes[i];
        knownType := true;
        break;
      }
      i := i + 1;
    }
    assert ODF_CHARTTYPES[..NUM_CHARTTYPES] == ODF_CHARTTYPES;
    if knownType {
      forall t | OdfClass(t) == chartClass
        ensures chartType == t
      {
        OdfClassInjective(chartType, t);
      }
    } else {
      forall t
        ensures OdfClass(t) != chartClass
      {
        assert OdfClass(t) == ODF_CHARTTYPES[TypeIndex(t)];
      }
    }
  }

  /**
   * Step 1 of `loadOdfChartElement`: the chart type named by the element's
   * `chart:class`, or None, which makes the load fail, when the attribute
   * is missing or names no chart type.
   */
  method LoadChartClass(chartElement: Node) returns (r: Option<ChartType>)
    ensures !HasAttributeNS(chartElement, CHART_CLASS) ==> r == None
    ensures r.Some? ==> OdfClass(r.value) == AttributeNS(chartElement, CHART_CLASS)
    ensures HasAttributeNS(chartElement, CHART_CLASS) ==>
      (r.Some? <==> AttributeNS(chartElement, CHART_CLASS) in ODF_CHARTTYPES)
    ensures forall t :: HasAttributeNS(chartElement, CHART_CLASS) && AttributeNS(chartElement, CHART_CLASS) == OdfClass(t) ==>
      r == Some(t)
  {
    if !HasAttributeNS(chartElement, CHART_CLASS) {
      return None;
    }
    var chartClass := AttributeNS(chartElement, CHART_CLASS);
    var knownType, chartType := FindChartType(chartClass);
    if !knownType {
      return None;
    }
    return Some(chartType);
  }

  // ---------------------------------------------------------------
  // The default data-set palette.

  const NUM_DEFAULT_DATASET_COLORS: int := 12

  /** `defaultDataSetColors`, the "#rrggbb" names as the colours they parse to. */
  const DefaultDataSetColors: seq<Color> := [
    Rgb(0x00, 0x45, 0x86), Rgb(0xff, 0x42, 0x0e), Rgb(0xff, 0xd3, 0x20), Rgb(0x57, 0x9d, 0x1c),
    Rgb(0x7e, 0x00, 0x21), Rgb(0x83, 0xca, 0xff), Rgb(0x31, 0x40, 0x04), Rgb(0xae, 0xcf, 0x00),
    Rgb(0x4b, 0x1f, 0x6f), Rgb(0xff, 0x95, 0x0e), Rgb(0xc5, 0x00, 0x0b), Rgb(0x00, 0x84, 0xd1)]

  /**
   * `defaultDataSetColor(n)`: the palette entry at `n % 12` with C++'s
   * remainder. A negative `n` that is not a multiple of 12 gives a negative
   * index, an out-of-bounds read in C++, which the model reports as None.
   */
  function DefaultDataSetColor(dataSetNum: int): (c: Option<Color>)
    ensures dataSetNum >= 0 ==> c == Some(DefaultDataSetColors[dataSetNum % NUM_DEFAULT_DATASET_COLORS])
    ensures c.None? <==> dataSetNum < 0 && dataSetNum % NUM_DEFAULT_DATASET_COLORS != 0
  {
    var i := CRem(dataSetNum, NUM_DEFAULT_DATASET_COLORS);
    if 0 <= i < |DefaultDataSetColors| then Some(DefaultDataSetColors[i]) else None
  }

  /** The palette repeats with period 12 and with no shorter period: its twelve colours are distinct. */
  lemma DefaultDataSetColorPeriodic(n: nat, m: nat)
    ensures DefaultDataSetColor(n + NUM_DEFAULT_DATASET_COLORS) == DefaultDataSetColor(n)
    ensures DefaultDataSetColor(n) == DefaultDataSetColor(n % NUM_DEFAULT_DATASET_COLORS)
    ensures DefaultDataSetColor(n) == DefaultDataSetColor(m) <==>
      n % NUM_DEFAULT_DATASET_COLORS == m % NUM_DEFAULT_DATASET_COLORS
  {
    assert forall i, j :: 0 <= i < j < 12 ==> DefaultDataSetColors[i] != DefaultDataSetColors[j];
    assert (n + 12) % 12 == n % 12;
  }

  // ---------------------------------------------------------------
  // Font weight.

  /**
   * The `fo:font-weight` value of `saveOdfFont`: QFont's Normal (50) and
   * Bold (75) weights by name, any other weight `w` as the decimal of
   * `(w / 10) * 100` with C++'s truncating division.
   */
  function FontWeightText(w: int): string {
    if w == 50 then "normal"
    else if w == 75 then "bold"
    else NumberText(CDiv(w, 10) * 100)
  }

  /**
   * For QFont weights (0 to 99), the two names are used exactly for Normal
   * and Bold, and every other weight reads back as its own tens digit
   * times 100: a CSS weight from 0 to 900.
   */
  lemma {:induction false} FontWeightMeaning(w: int)
    requires 0 <= w <= 99
    ensures FontWeightText(w) == "normal" <==> w == 50
    ensures FontWeightText(w) == "bold" <==> w == 75
    ensures w != 50 && w != 75 ==>
      exists k :: 0 <= k <= 9 && ParseInt(FontWeightText(w)) == Some(k * 100) && k * 10 <= w < k * 10 + 10
  {
    var k := w / 10;
    assert CDiv(w, 10) == k;
    var s := NumberText(k * 100);
    assert s == Digits(k * 100);
    assert IsDigit(s[0]);
    assert "normal"[0] == 'n' && "bold"[0] == 'b';
    if w != 50 && w != 75 {
      ParseIntNumberText(k * 100);
      assert ParseInt(FontWeightText(w)) == Some(k * 100);
    }
  }

  /** The named QFont weights: Light, Normal, DemiBold, Bold and Black. */
  lemma QFontWeights()
    ensures FontWeightText(25) == "200" && FontWeightText(50) == "normal"
    ensures FontWeightText(63) == "600" && FontWeightText(75) == "bold"
    ensures FontWeightText(87) == "800"
  {
    assert Digits(200) == Digits(20) + ['0'] && Digits(20) == Digits(2) + ['0'];
    assert Digits(600) == Digits(60) + ['0'] && Digits(60) == Digits(6) + ['0'];
    assert Digits(800) == Digits(80) + ['0'] && Digits(80) == Digits(8) + ['0'];
  }

  // ---------------------------------------------------------------
  // Resolving the `xlink:href` of an embedded chart document.

  const XLINK_HREF: QName := QName(OtherNS("http://www.w3.org/1999/xlink"), "href")
  const INTERNAL_PROTOCOL: string := "intern"
  const ODF_MIME_PREFIX: string := "application/vnd.oasis.opendocument"

  /**
   * What `loadEmbeddedDocument` depends on outside the XML: the store's
   * current directory, `KUrl::isRelativeUrl`, the path part of a `KUrl`,
   * the manifest's media type for a path ("" when it lists none) and
   * whether some installed component handles a media type.
   */
  datatype StoreContext = StoreContext(
    currentDirectory: string,
    isRelativeUrl: string -> bool,
    urlPath: string -> string,
    mimeForPath: string -> string,
    hasDocumentEntry: string -> bool)

  datatype EmbedResult =
    /** The load fails. */
    | Failed
    /** An empty href, as a `presentation:placeholder` has: the load succeeds with nothing to read. */
    | Placeholder
    /** The document at `url` is to be opened as a document of type `mimeType`; its files are under `path`. */
    | Resolved(url: string, path: string, mimeType: string)

  /** `QString::mid(1)`. */
  function Mid1(s: string): string {
    if |s| >= 1 then s[1..] else ""
  }

  /** The URL an href names: a leading '#' dropped, and a relative URL made internal to the store. */
  function StoreUrl(href: string, isRelativeUrl: string -> bool): string {
    var url := if |href| > 0 && href[0] == '#' then href[1..] else href;
    if isRelativeUrl(url) then
      if StartsWith(url, "./") then INTERNAL_PROTOCOL + ":/" + url[2..] else INTERNAL_PROTOCOL + ":/" + url
    else url
  }

  /** The directory in the store that holds the embedded document's files. */
  function StorePath(tmpUrl: string, ctx: StoreContext): string {
    var path :=
      if StartsWith(tmpUrl, INTERNAL_PROTOCOL) then
        var dir := ctx.currentDirectory;
        var dir' := if dir != "" && !EndsWithChar(dir, '/') then dir + "/" else dir;
        dir' + Mid1(ctx.urlPath(tmpUrl))
      else tmpUrl;
    if EndsWithChar(path, '/') then path else path + "/"
  }

  /** What `loadEmbeddedDocument` resolves an object element to before it opens the store. */
  function ResolveHref(objectElement: Node, ctx: StoreContext): EmbedResult {
    if !HasAttributeNS(objectElement, XLINK_HREF) then Failed
    else
      var href := AttributeNS(objectElement, XLINK_HREF);
      if href == "" then Placeholder
      else
        var tmpUrl := StoreUrl(href, ctx.isRelativeUrl);
        var path := StorePath(tmpUrl, ctx);
        var mimeType := ctx.mimeForPath(path);
        if mimeType == "" || !ctx.hasDocumentEntry(mimeType) then Failed
        else Resolved(if StartsWith(mimeType, ODF_MIME_PREFIX) then tmpUrl else tmpUrl + "/maindoc.xml", path, mimeType)
  }

  /**
   * The href handling of `loadEmbeddedDocument`, rewriting `url`, `tmpURL`
   * and `path` step by step as the C++ does.
   */
  method ResolveEmbeddedDocument(objectElement: Node, ctx: StoreContext) returns (r: EmbedResult)
    ensures r == ResolveHref(objectElement, ctx)
  {
    if !HasAttributeNS(objectElement, XLINK_HREF) {
      return Failed;
    }
    var url := AttributeNS(objectElement, XLINK_HREF);
    if url == "" {
      return Placeholder;
    }
    var tmpUrl: string;
    if url[0] == '#' {
      url := url[1..];
    }
    if ctx.isRelativeUrl(url) {
      if StartsWith(url, "./") {
        tmpUrl := INTERNAL_PROTOCOL + ":/" + url[2..];
      } else {
        tmpUrl := INTERNAL_PROTOCOL + ":/" + url;
      }
    } else {
      tmpUrl := url;
    }
    var path := tmpUrl;
    if StartsWith(tmpUrl, INTERNAL_PROTOCOL) {
      path := ctx.currentDirectory;
      if path != "" && !EndsWithChar(path, '/') {
        path := path + "/";
      }
      var relPath := ctx.urlPath(tmpUrl);
      path := path + Mid1(relPath);
    }
    if !EndsWithChar(path, '/') {
      path := path + "/";
    }
    var mimeType := ctx.mimeForPath(path);
    if mimeType == "" {
      return Failed;
    }
    var isOdf := StartsWith(mimeType, ODF_MIME_PREFIX);
    if !isOdf {
      tmpUrl := tmpUrl + "/maindoc.xml";
    }
    if !ctx.hasDocumentEntry(mimeType) {
      return Failed;
    }
    return Resolved(tmpUrl, path, mimeType);
  }

  /**
   * A missing href fails and an empty one succeeds at once; a resolved
   * document has a store path ending in '/', a media type the manifest
   * lists for that path, and a URL that ends in "/maindoc.xml" unless the
   * media type is an OpenDocument one.
   */
  lemma ResolveHrefMeaning(objectElement: Node, ctx: StoreContext)
    ensures ResolveHref(objectElement, ctx) == Placeholder <==>
      HasAttributeNS(objectElement, XLINK_HREF) && AttributeNS(objectElement, XLINK_HREF) == ""
    ensures !HasAttributeNS(objectElement, XLINK_HREF) ==> ResolveHref(objectElement, ctx) == Failed
    ensures ResolveHref(objectElement, ctx).Resolved? ==>
      var r := ResolveHref(objectElement, ctx);
      EndsWithChar(r.path, '/') && r.mimeType == ctx.mimeForPath(r.path) && r.mimeType != "" &&
      r.url == StoreUrl(AttributeNS(objectElement, XLINK_HREF), ctx.isRelativeUrl) +
        (if StartsWith(r.mimeType, ODF_MIME_PREFIX) then "" else "/maindoc.xml")
  {
    if ResolveHref(objectElement, ctx).Resolved? {
      var tmpUrl := StoreUrl(AttributeNS(objectElement, XLINK_HREF), ctx.isRelativeUrl);
      assert tmpUrl + "" == tmpUrl;
      StorePathEndsWithSlash(tmpUrl, ctx);
    }
  }

  lemma StorePathEndsWithSlash(tmpUrl: string, ctx: StoreContext)
    ensures EndsWithChar(StorePath(tmpUrl, ctx), '/')
  {
  }

  /**
   * A relative href names a file of the store itself: "./x" and "x" both
   * become "intern:/x", with or without a leading '#'; an absolute href is
   * kept as it is.
   */
  lemma {:induction false} StoreUrlMeaning(x: string, isRelativeUrl: string -> bool)
    requires !StartsWith(x, "./") && !StartsWith(x, "#")
    ensures isRelativeUrl(x) ==> StoreUrl(x, isRelativeUrl) == "intern:/" + x
    ensures isRelativeUrl("./" + x) ==> StoreUrl("./" + x, isRelativeUrl) == "intern:/" + x
    ensures StoreUrl("#" + x, isRelativeUrl) == StoreUrl(x, isRelativeUrl)
    ensures !isRelativeUrl(x) ==> StoreUrl(x, isRelativeUrl) == x
  {
    StoreUrlPlain(x, isRelativeUrl);
    StoreUrlDotSlash(x, isRelativeUrl);
    StoreUrlHash(x, isRelativeUrl);
  }

  lemma StoreUrlPlain(x: string, isRelativeUrl: string -> bool)
    requires !StartsWith(x, "./") && !StartsWith(x, "#")
    ensures StoreUrl(x, isRelativeUrl) == if isRelativeUrl(x) then "intern:/" + x else x
  {
    assert |x| > 0 ==> x[..1] == [x[0]];
  }

  lemma StoreUrlDotSlash(x: string, isRelativeUrl: string -> bool)
    ensures isRelativeUrl("./" + x) ==> StoreUrl("./" + x, isRelativeUrl) == "intern:/" + x
  {
    var href := "./" + x;
    assert href[0] == '.' && href[..2] == "./" && href[2..] == x;
  }

  lemma StoreUrlHash(x: string, isRelativeUrl: string -> bool)
    requires !StartsWith(x, "#")
    ensures StoreUrl("#" + x, isRelativeUrl) == StoreUrl(x, isRelativeUrl)
  {
    var href := "#" + x;
    assert href[0] == '#' && href[1..] == x;
    assert |x| > 0 ==> x[..1] == [x[0]];
  }

  // ---------------------------------------------------------------
  // Title, subtitle and footer.

  datatype LabelType = TitleLabelType | SubTitleLabelType | FooterLabelType

  const SVG_X: QName := QName(OtherNS("urn:oasis:names:tc:opendocument:xmlns:svg-compatible:1.0"), "x")
  const SVG_Y: QName := QName(OtherNS("urn:oasis:names:tc:opendocument:xmlns:svg-compatible:1.0"), "y")
  const SVG_WIDTH: QName := QName(OtherNS("urn:oasis:names:tc:opendocument:xmlns:svg-compatible:1.0"), "width")
  const SVG_HEIGHT: QName := QName(OtherNS("urn:oasis:names:tc:opendocument:xmlns:svg-compatible:1.0"), "height")
  const CHART_STYLE_NAME: QName := QName(ChartNS, "style-name")

  /** The element a label is saved as: `chart:footer`, `chart:subtitle`, or `chart:title` by default. */
  function LabelElementName(labelType: LabelType): QName {
    match labelType
    case FooterLabelType => QName(ChartNS, "footer")
    case SubTitleLabelType => QName(ChartNS, "subtitle")
    case TitleLabelType => QName(ChartNS, "title")
  }

  /** A text label shape: its visibility, its geometry and the plain text of its text-label data, if it has any. */
  class Label {
    var visible: bool
    var x: Double
    var y: Double
    var width: Double
    var height: Double
    var text: Option<string>

    constructor (visible: bool, x: Double, y: Double, width: Double, height: Double, text: Option<string>)
      ensures this.visible == visible && this.text == text
      ensures this.x == x && this.y == y && this.width == width && this.height == height
    {
      this.visible := visible;
      this.x := x;
      this.y := y;
      this.width := width;
      this.height := height;
      this.text := text;
    }
  }

  /** The element `saveOdfLabel` writes for a label holding `text`. */
  function LabelElement(labelType: LabelType, attrs: map<QName, string>, text: string): Node {
    Element(LabelElementName(labelType), attrs, [Element(TEXT_P, map[], [Text(text)])])
  }

  /**
   * `saveOdfLabel`: a hidden label, or one without text-label data, is not
   * saved at all (hiding is how a label is removed from a chart); any other
   * is written with its geometry (`ptText` formats a length in points), the
   * style name the font was saved under, and its plain text in a `text:p`.
   */
  method SaveOdfLabel(labelShape: Label, w: XmlWriter, labelType: LabelType, styleName: string, ptText: Double -> string)
    requires w.Valid()
    modifies w
    ensures w.Valid()
    ensures !labelShape.visible || labelShape.text.None? ==> w.open == old(w.open) && w.closed == old(w.closed)
    ensures labelShape.visible && labelShape.text.Some? ==>
      (w.open, w.closed) == old(Emit(w.open, w.closed, LabelElement(labelType,
        map[SVG_X := ptText(labelShape.x), SVG_Y := ptText(labelShape.y), SVG_WIDTH := ptText(labelShape.width),
            SVG_HEIGHT := ptText(labelShape.height), CHART_STYLE_NAME := styleName],
        labelShape.text.value)))
  {
    if !labelShape.visible {
      return;
    }
    if labelShape.text.None? {
      return;
    }
    ghost var below := w.open;
    w.StartElement(LabelElementName(labelType));
    TakeOfAppend(below, [Element(LabelElementName(labelType), map[], [])]);
    w.AddAttribute(SVG_X, ptText(labelShape.x));
    TakeOfAppend(below, [w.open[|w.open| - 1]]);
    w.AddAttribute(SVG_Y, ptText(labelShape.y));
    TakeOfAppend(below, [w.open[|w.open| - 1]]);
    w.AddAttribute(SVG_WIDTH, ptText(labelShape.width));
    TakeOfAppend(below, [w.open[|w.open| - 1]]);
    w.AddAttribute(SVG_HEIGHT, ptText(labelShape.height));
    TakeOfAppend(below, [w.open[|w.open| - 1]]);
    w.AddAttribute(CHART_STYLE_NAME, styleName);
    ghost var labelOpen := w.open[|w.open| - 1];
    assert w.open == below + [labelOpen];
    assert labelOpen == Element(LabelElementName(labelType),
      map[SVG_X := ptText(labelShape.x), SVG_Y := ptText(labelShape.y), SVG_WIDTH := ptText(labelShape.width),
          SVG_HEIGHT := ptText(labelShape.height), CHART_STYLE_NAME := styleName], []);
    ghost var para := Element(TEXT_P, map[], [Text(labelShape.text.value)]);
    EmitOnto(below, labelOpen, w.closed, para);
    WriteParagraph(w, labelShape.text.value);
    TakeOfAppend(below, [AppendChild(labelOpen, para)]);
    AppendEmpty([para]);
    w.EndElement();
  }

  /** A `text:p` element holding `text`, as the savers write it. */
  method WriteParagraph(w: XmlWriter, text: string)
    requires w.Valid()
    modifies w
    ensures w.Valid()
    ensures (w.open, w.closed) == old(Emit(w.open, w.closed, Element(TEXT_P, map[], [Text(text)])))
  {
    ghost var below := w.open;
    w.StartElement(TEXT_P);
    EmitOnto(below, Element(TEXT_P, map[], []), w.closed, Text(text));
    w.AddTextNode(text);
    AppendEmpty([Text(text)]);
    TakeOfAppend(below, [Element(TEXT_P, map[], [Text(text)])]);
    w.EndElement();
  }

  // ---------------------------------------------------------------
  // Saving the internal data table.

  const TABLE_TABLE: QName := QName(TableNS, "table")
  const TABLE_NAME: QName := QName(TableNS, "name")
  const TABLE_HEADER_COLUMNS: QName := QName(TableNS, "table-header-columns")
  const TABLE_COLUMNS: QName := QName(TableNS, "table-columns")
  const TABLE_COLUMN: QName := QName(TableNS, "table-column")
  const TABLE_NUMBER_COLUMNS_REPEATED: QName := QName(TableNS, "number-columns-repeated")
  const TABLE_HEADER_ROWS: QName := QName(TableNS, "table-header-rows")
  const TABLE_ROWS: QName := QName(TableNS, "table-rows")

  /**
   * The `office:value-type` and text `saveOdfDataRow` writes for a value;
   * the type is empty for an invalid value and for the kinds it does not
   * handle (booleans). `number` is `QString::number(d, 'g', DBL_DIG)`.
   */
  function CellTyping(v: Variant, number: Double -> string): (string, string) {
    match v
    case Str(s) => ("string", s)
    case Dbl(d) => ("float", number(d))
    case DateTimeV(_) => ("date", "")
    case _ => ("", "")
  }

  /**
   * The `table:table-cell` saved for a value: empty when it has no type;
   * otherwise typed, with `office:value` for doubles only, and holding its
   * text in a `text:p`.
   */
  function CellElement(v: Variant, number: Double -> string): Node {
    var (valType, valStr) := CellTyping(v, number);
    if valType == "" then Element(TABLE_CELL, map[], [])
    else
      Element(TABLE_CELL,
        if v.Dbl? then map[OFFICE_VALUE_TYPE := valType, OFFICE_VALUE := valStr] else map[OFFICE_VALUE_TYPE := valType],
        [Element(TEXT_P, map[], [Text(valStr)])])
  }

  /** `table->data(index(r, c))` of a table in state `st`. */
  function DataAt(st: LoadState, r: nat, c: nat): Variant {
    if (r, c) in st.cells then st.cells[(r, c)] else Invalid
  }

  /** The cells saved for row `row`: one per column of the table. */
  function RowCellElements(st: LoadState, row: nat, number: Double -> string): seq<Node> {
    seq(st.cols, c requires 0 <= c < st.cols => CellElement(DataAt(st, row, c), number))
  }

  function RowElement(st: LoadState, row: nat, number: Double -> string): Node {
    Element(TABLE_ROW, map[], RowCellElements(st, row, number))
  }

  /** The rows saved from row `first` on, in order. */
  function RowElements(st: LoadState, first: nat, number: Double -> string): seq<Node>
    requires first <= st.rows
  {
    seq(st.rows - first, k requires 0 <= k < st.rows - first => RowElement(st, first + k, number))
  }

  function HeaderColumnsElement(): Node {
    Element(TABLE_HEADER_COLUMNS, map[], [Element(TABLE_COLUMN, map[], [])])
  }

  function ColumnsElement(cols: nat): Node {
    Element(TABLE_COLUMNS, map[], [Element(TABLE_COLUMN, map[TABLE_NUMBER_COLUMNS_REPEATED := NumberText(cols)], [])])
  }

  /** The first row, if there is one: the header row. */
  function HeaderRowsElement(st: LoadState, number: Double -> string): Node {
    Element(TABLE_HEADER_ROWS, map[], if st.rows > 0 then [RowElement(st, 0, number)] else [])
  }

  /** All rows after the first. */
  function DataRowsElement(st: LoadState, number: Double -> string): Node {
    Element(TABLE_ROWS, map[], RowElements(st, if st.rows > 0 then 1 else 0, number))
  }

  /**
   * The `table:table` element `saveOdfData` writes: exactly one header
   * column, a column group repeated once per table column, the first row
   * as the header row and the other rows as data rows.
   */
  function TableElement(st: LoadState, tableName: string, number: Double -> string): Node {
    Element(TABLE_TABLE, map[TABLE_NAME := tableName],
      [HeaderColumnsElement(), ColumnsElement(st.cols), HeaderRowsElement(st, number), DataRowsElement(st, number)])
  }

  /** The body of `saveOdfDataRow`'s column loop: one cell. */
  method SaveOdfCell(w: XmlWriter, value: Variant, number: Double -> string)
    requires w.Valid()
    modifies w
    ensures w.Valid()
    ensures (w.open, w.closed) == old(Emit(w.open, w.closed, CellElement(value, number)))
  {
    var valType := "";
    var valStr := "";
    match value {
      case Invalid =>
      case Str(s) =>
        valType := "string";
        valStr := s;
      case Dbl(d) =>
        valType := "float";
        valStr := number(d);
      case DateTimeV(_) =>
        valType := "date";
        valStr := "";
      case Bool(_) =>
    }
    ghost var below := w.open;
    w.StartElement(TABLE_CELL);
    TakeOfAppend(below, [Element(TABLE_CELL, map[], [])]);
    if valType != "" {
      w.AddAttribute(OFFICE_VALUE_TYPE, valType);
      if value.Dbl? {
        TakeOfAppend(below, [w.open[|w.open| - 1]]);
        w.AddAttribute(OFFICE_VALUE, valStr);
      }
      ghost var cellOpen := w.open[|w.open| - 1];
      assert w.open == below + [cellOpen];
      ghost var para := Element(TEXT_P, map[], [Text(valStr)]);
      EmitOnto(below, cellOpen, w.closed, para);
      WriteParagraph(w, valStr);
      TakeOfAppend(below, [AppendChild(cellOpen, para)]);
      AppendEmpty([para]);
    }
    w.EndElement();
  }

  /** `saveOdfDataRow`: a `table:table-row` with one cell per column of the table, in column order. */
  method SaveOdfDataRow(w: XmlWriter, table: TableModel, row: nat, number: Double -> string)
    requires w.Valid()
    modifies w
    ensures w.Valid()
    ensures (w.open, w.closed) == old(Emit(w.open, w.closed, RowElement(table.State(), row, number)))
  {
    ghost var below := w.open;
    ghost var cs := RowCellElements(table.State(), row, number);
    w.StartElement(TABLE_ROW);
    assert cs[..0] == [];
    var cols := table.columnCount;
    var col := 0;
    while col < cols
      invariant 0 <= col <= cols && w.Valid()
      invariant w.open == below + [Element(TABLE_ROW, map[], cs[..col])] && w.closed == old(w.closed)
    {
      EmitOnto(below, Element(TABLE_ROW, map[], cs[..col]), w.closed, cs[col]);
      SaveOdfCell(w, table.Data(row, col), number);
      TakeSnoc(cs, col);
      col := col + 1;
    }
    TakeAll(cs);
    TakeOfAppend(below, [Element(TABLE_ROW, map[], cs)]);
    w.EndElement();
  }

  /**
   * `saveOdfData`: nothing without an internal model; otherwise one
   * `table:table` named after the model's table, laid out as
   * `TableElement` says.
   */
  method SaveOdfData(w: XmlWriter, internalModel: TableModel?, tableName: string, number: Double -> string)
    requires w.Valid()
    modifies w
    ensures w.Valid()
    ensures internalModel == null ==> w.open == old(w.open) && w.closed == old(w.closed)
    ensures internalModel != null ==>
      (w.open, w.closed) == old(Emit(w.open, w.closed, TableElement(internalModel.State(), tableName, number)))
  {
    if internalModel == null {
      return;
    }
    var rows := internalModel.rowCount;
    var cols := internalModel.columnCount;
    ghost var st := internalModel.State();
    ghost var below := w.open;

    w.StartElement(TABLE_TABLE);
    TakeOfAppend(below, [Element(TABLE_TABLE, map[], [])]);
    w.AddAttribute(TABLE_NAME, tableName);
    ghost var t0 := Element(TABLE_TABLE, map[TABLE_NAME := tableName], []);
    assert w.open == below + [t0];

    EmitOnto(below, t0, w.closed, HeaderColumnsElement());
    SaveHeaderColumns(w);
    ghost var t1 := AppendChild(t0, HeaderColumnsElement());

    EmitOnto(below, t1, w.closed, ColumnsElement(cols));
    SaveColumns(w, cols);
    ghost var t2 := AppendChild(t1, ColumnsElement(cols));

    var row := 0;
    EmitOnto(below, t2, w.closed, HeaderRowsElement(st, number));
    row := SaveHeaderRows(w, internalModel, number);
    ghost var t3 := AppendChild(t2, HeaderRowsElement(st, number));

    EmitOnto(below, t3, w.closed, DataRowsElement(st, number));
    SaveDataRows(w, internalModel, row, number);
    ghost var t4 := AppendChild(t3, DataRowsElement(st, number));

    AppendFour(HeaderColumnsElement(), ColumnsElement(cols), HeaderRowsElement(st, number), DataRowsElement(st, number));
    assert t4 == TableElement(st, tableName, number);
    TakeOfAppend(below, [t4]);
    w.EndElement();
  }

  /** The single header column of the saved table. */
  method SaveHeaderColumns(w: XmlWriter)
    requires w.Valid()
    modifies w
    ensures w.Valid()
    ensures (w.open, w.closed) == old(Emit(w.open, w.closed, HeaderColumnsElement()))
  {
    ghost var below := w.open;
    w.StartElement(TABLE_HEADER_COLUMNS);
    ghost var group := Element(TABLE_HEADER_COLUMNS, map[], []);
    EmitOnto(below, group, w.closed, Element(TABLE_COLUMN, map[], []));
    w.StartElement(TABLE_COLUMN);
    TakeOfAppend(below + [group], [Element(TABLE_COLUMN, map[], [])]);
    w.EndElement();
    AppendEmpty([Element(TABLE_COLUMN, map[], [])]);
    TakeOfAppend(below, [HeaderColumnsElement()]);
    w.EndElement();
  }

  /** The column group of the saved table, repeated once per column. */
  method SaveColumns(w: XmlWriter, cols: nat)
    requires w.Valid()
    modifies w
    ensures w.Valid()
    ensures (w.open, w.closed) == old(Emit(w.open, w.closed, ColumnsElement(cols)))
  {
    ghost var below := w.open;
    w.StartElement(TABLE_COLUMNS);
    ghost var group := Element(TABLE_COLUMNS, map[], []);
    ghost var column := Element(TABLE_COLUMN, map[TABLE_NUMBER_COLUMNS_REPEATED := NumberText(cols)], []);
    w.StartElement(TABLE_COLUMN);
    TakeOfAppend(below + [group], [Element(TABLE_COLUMN, map[], [])]);
    w.AddAttribute(TABLE_NUMBER_COLUMNS_REPEATED, NumberText(cols));
    assert w.open == (below + [group]) + [column];
    EmitOnto(below, group, w.closed, column);
    TakeOfAppend(below + [group], [column]);
    w.EndElement();
    AppendEmpty([column]);
    TakeOfAppend(below, [ColumnsElement(cols)]);
    w.EndElement();
  }

  /** The header-row group: the first row, when the table has one. Returns the next row to save. */
  method SaveHeaderRows(w: XmlWriter, table: TableModel, number: Double -> string) returns (row: nat)
    requires w.Valid()
    modifies w
    ensures w.Valid()
    ensures (w.open, w.closed) == old(Emit(w.open, w.closed, HeaderRowsElement(table.State(), number)))
    ensures row == if table.rowCount > 0 then 1 else 0
  {
    row := 0;
    ghost var below := w.open;
    ghost var group := Element(TABLE_HEADER_ROWS, map[], []);
    w.StartElement(TABLE_HEADER_ROWS);
    if table.rowCount > 0 {
      EmitOnto(below, group, w.closed, RowElement(table.State(), row, number));
      SaveOdfDataRow(w, table, row, number);
      row := row + 1;
      AppendEmpty([RowElement(table.State(), 0, number)]);
    }
    TakeOfAppend(below, [HeaderRowsElement(table.State(), number)]);
    w.EndElement();
  }

  /** The data-row group: every row from `first` on, in order. */
  method SaveDataRows(w: XmlWriter, table: TableModel, first: nat, number: Double -> string)
    requires w.Valid() && first == (if table.rowCount > 0 then 1 else 0)
    modifies w
    ensures w.Valid()
    ensures (w.open, w.closed) == old(Emit(w.open, w.closed, DataRowsElement(table.State(), number)))
  {
    ghost var below := w.open;
    ghost var rs := RowElements(table.State(), first, number);
    w.StartElement(TABLE_ROWS);
    assert rs[..0] == [];
    var row := first;
    while row < table.rowCount
      invariant first <= row <= table.rowCount && w.Valid()
      invariant w.open == below + [Element(TABLE_ROWS, map[], rs[..row - first])] && w.closed == old(w.closed)
    {
      EmitOnto(below, Element(TABLE_ROWS, map[], rs[..row - first]), w.closed, rs[row - first]);
      SaveOdfDataRow(w, table, row, number);
      TakeSnoc(rs, row - first);
      row := row + 1;
    }
    TakeAll(rs);
    TakeOfAppend(below, [Element(TABLE_ROWS, map[], rs)]);
    w.EndElement();
  }

  /** The shape's own state: its three labels, its proxy model and the layout requests it has made. */
  class ChartShape {
    const title: Label
    const subTitle: Label
    const footer: Label
    const proxyModel: Proxy.ProxyModel
    var usesInternalModelOnly: bool
    /** How many relayouts the shape has scheduled on its layout. */
    var relayouts: nat

    constructor (title: Label, subTitle: Label, footer: Label, proxyModel: Proxy.ProxyModel)
      ensures this.title == title && this.subTitle == subTitle && this.footer == footer
      ensures this.proxyModel == proxyModel && usesInternalModelOnly && relayouts == 0
    {
      this.title := title;
      this.subTitle := subTitle;
      this.footer := footer;
      this.proxyModel := proxyModel;
      usesInternalModelOnly := true;
      relayouts := 0;
    }

    /**
     * `Private::setChildVisible`: nothing happens when the child already
     * has the requested visibility; otherwise it is shown or hidden and one
     * relayout is scheduled.
     */
    method SetChildVisible(child: Label, doShow: bool)
      modifies child`visible, this`relayouts
      ensures child.visible == doShow
      ensures relayouts == old(relayouts) + (if old(child.visible) == doShow then 0 else 1)
    {
      if child.visible == doShow {
        return;
      }
      child.visible := doShow;
      relayouts := relayouts + 1;
    }

    method ShowTitle(doShow: bool)
      modifies title`visible, this`relayouts
      ensures title.visible == doShow
      ensures relayouts == old(relayouts) + (if old(title.visible) == doShow then 0 else 1)
    {
      SetChildVisible(title, doShow);
    }

    method ShowSubTitle(doShow: bool)
      modifies subTitle`visible, this`relayouts
      ensures subTitle.visible == doShow
      ensures relayouts == old(relayouts) + (if old(subTitle.visible) == doShow then 0 else 1)
    {
      SetChildVisible(subTitle, doShow);
    }

    method ShowFooter(doShow: bool)
      modifies footer`visible, this`relayouts
      ensures footer.visible == doShow
      ensures relayouts == old(relayouts) + (if old(footer.visible) == doShow then 0 else 1)
    {
      SetChildVisible(footer, doShow);
    }

    /**
     * `reset(region, firstRowIsLabel, firstColumnIsLabel, dataDirection)`:
     * the shape stops using its internal model only and passes the three
     * settings on to its proxy model, in that order.
     */
    method Reset(region: string, firstRowIsLabel: bool, firstColumnIsLabel: bool, dataDirection: Proxy.Orientation)
      modifies this`usesInternalModelOnly, proxyModel`firstRowIsLabel, proxyModel`firstColumnIsLabel,
        proxyModel`dataDirection, proxyModel`events
      ensures !usesInternalModelOnly
      ensures proxyModel.firstRowIsLabel == firstRowIsLabel && proxyModel.firstColumnIsLabel == firstColumnIsLabel
      ensures proxyModel.dataDirection == dataDirection
      ensures proxyModel.source == old(proxyModel.source)
      ensures proxyModel.events == old(proxyModel.events)
        + Proxy.RowLabelEvents(old(proxyModel.source), old(proxyModel.firstRowIsLabel), old(proxyModel.firstColumnIsLabel),
                               old(proxyModel.dataDirection), firstRowIsLabel)
        + Proxy.ColumnLabelEvents(old(proxyModel.source), firstRowIsLabel, old(proxyModel.firstColumnIsLabel),
                                  old(proxyModel.dataDirection), firstColumnIsLabel)
        + Proxy.DirectionEvents(old(proxyModel.source), firstRowIsLabel, firstColumnIsLabel, dataDirection)
    {
      usesInternalModelOnly := false;
      proxyModel.SetFirstRowIsLabel(firstRowIsLabel);
      proxyModel.SetFirstColumnIsLabel(firstColumnIsLabel);
      proxyModel.SetDataDirection(dataDirection);
    }
  }
}
