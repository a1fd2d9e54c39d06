/**
 * The static converters of kchart/kdchart/KDChartParams.cpp that write single
 * parameters into the QDom tree of a saved chart and read them back: pen
 * styles as names, booleans and integers as element text, colours as three
 * attributes, colour maps as alternating `Dataset`/`Color` elements and chart
 * values as one attribute. Each `create…Node` appends one element to its
 * parent; each `read…Node` reports success and, on success only, the value.
 */
module ParamsXml {
  import opened Base
  import opened Xml
  import opened QMaps
  import opened ChartValues

  /** An element or attribute name as QDom's `createElement`/`setAttribute` give it: no namespace. */
  function Tag(name: string): QName {
    QName(OtherNS(""), name)
  }

  /** An element holding nothing but the text `text`. */
  function LeafElement(name: string, text: string): Node {
    Element(Tag(name), map[], [Text(text)])
  }

  // ---------------------------------------------------------------
  // Pen styles

  /** Qt::PenStyle; `OtherPenStyle` stands for every value outside the six named ones. */
  datatype PenStyle = NoPen | SolidLine | DashLine | DotLine | DashDotLine | DashDotDotLine | OtherPenStyle

  /** `penStyleToString`. */
  function PenStyleToString(style: PenStyle): string {
    match style
    case NoPen => "NoPen"
    case SolidLine => "SolidLine"
    case DashLine => "DashLine"
    case DotLine => "DotLine"
    case DashDotLine => "DashDotLine"
    case DashDotDotLine => "DashDotDotLine"
    case OtherPenStyle => "SolidLine"
  }

  /** `stringToPenStyle`. */
  function StringToPenStyle(style: string): PenStyle {
    if style == "NoPen" then NoPen
    else if style == "SolidLine" then SolidLine
    else if style == "DashLine" then DashLine
    else if style == "DotLine" then DotLine
    else if style == "DashDotLine" then DashDotLine
    else if style == "DashDotDotLine" then DashDotDotLine
    else SolidLine
  }

  predicate IsStyleName(s: string) {
    s == "NoPen" || s == "SolidLine" || s == "DashLine" || s == "DotLine" || s == "DashDotLine" || s == "DashDotDotLine"
  }

  /**
   * The six named styles survive writing and reading back, an unknown style
   * is written as "SolidLine", every written name is one of the six names,
   * and any other name reads as a solid line.
   */
  lemma PenStyleRoundTrip(style: PenStyle, name: string)
    ensures IsStyleName(PenStyleToString(style))
    ensures style != OtherPenStyle ==> StringToPenStyle(PenStyleToString(style)) == style
    ensures style == OtherPenStyle ==> StringToPenStyle(PenStyleToString(style)) == SolidLine
    ensures !IsStyleName(name) ==> StringToPenStyle(name) == SolidLine
    ensures IsStyleName(name) ==> PenStyleToString(StringToPenStyle(name)) == name
  {
  }

  // ---------------------------------------------------------------
  // Booleans and integers as element text

  /** `createBoolNode`: appends `<name>true</name>` or `<name>false</name>` to `parent`. */
  function CreateBoolNode(parent: Node, name: string, value: bool): Node
    requires parent.Element?
  {
    AppendChild(parent, LeafElement(name, if value then "true" else "false"))
  }

  /**
   * `readBoolNode`: succeeds exactly on the texts "true" and "false", and
   * leaves the value it was given alone otherwise.
   */
  function ReadBoolNode(element: Node, value: bool): (r: (bool, bool))
    ensures r.0 <==> TextOf(element) == "true" || TextOf(element) == "false"
    ensures r.0 ==> (r.1 <==> TextOf(element) == "true")
    ensures !r.0 ==> r.1 == value
  {
    if TextOf(element) == "true" then (true, true)
    else if TextOf(element) == "false" then (true, false)
    else (false, value)
  }

  /** The element `createBoolNode` appends reads back as the boolean written. */
  lemma BoolNodeRoundTrip(parent: Node, name: string, value: bool, previous: bool)
    requires parent.Element?
    ensures |CreateBoolNode(parent, name, value).children| == |parent.children| + 1
    ensures ReadBoolNode(CreateBoolNode(parent, name, value).children[|parent.children|], previous) == (true, value)
  {
    var text := if value then "true" else "false";
    TextOfLeaf(Tag(name), map[], text);
    assert CreateBoolNode(parent, name, value).children[|parent.children|] == LeafElement(name, text);
  }

  /** `createIntNode`: appends an element holding the decimal text of `value`. */
  function CreateIntNode(parent: Node, name: string, value: int): Node
    requires parent.Element?
  {
    AppendChild(parent, LeafElement(name, NumberText(value)))
  }

  /**
   * `readIntNode`: succeeds exactly when the text is a 32-bit decimal integer,
   * and leaves the value it was given alone otherwise.
   */
  function ReadIntNode(element: Node, value: int): (r: (bool, int))
    ensures r.0 <==> ParseInt(TextOf(element)).Some?
    ensures r.0 ==> r.1 == ParseInt(TextOf(element)).value && IsInt32(r.1)
    ensures !r.0 ==> r.1 == value
  {
    match ParseInt(TextOf(element))
    case Some(v) => (true, v)
    case None => (false, value)
  }

  /** The element `createIntNode` appends reads back as the int written. */
  lemma IntNodeRoundTrip(parent: Node, name: string, value: int, previous: int)
    requires parent.Element? && IsInt32(value)
    ensures |CreateIntNode(parent, name, value).children| == |parent.children| + 1
    ensures ReadIntNode(CreateIntNode(parent, name, value).children[|parent.children|], previous) == (true, value)
  {
    TextOfLeaf(Tag(name), map[], NumberText(value));
    ParseIntNumberText(value);
    assert CreateIntNode(parent, name, value).children[|parent.children|] == LeafElement(name, NumberText(value));
  }

  // ---------------------------------------------------------------
  // Colours as Red/Green/Blue attributes

  const RED := Tag("Red")
  const GREEN := Tag("Green")
  const BLUE := Tag("Blue")

  /**
   * The components a QColor reports. The invalid colour of Qt 3 stores an
   * RGB word whose colour bytes are zero, so it reports black.
   */
  function Components(c: Color): (int, int, int) {
    match c
    case InvalidColor => (0, 0, 0)
    case Rgb(r, g, b) => (r, g, b)
  }

  /** A colour Qt can hold: the invalid one, or components within 0..255. */
  predicate IsQtColor(c: Color) {
    c.Rgb? ==> 0 <= c.red <= 255 && 0 <= c.green <= 255 && 0 <= c.blue <= 255
  }

  /** The element `createColorNode` appends. */
  function ColorElement(name: string, c: Color): Node {
    var (r, g, b) := Components(c);
    Element(Tag(name), map[RED := NumberText(r), GREEN := NumberText(g), BLUE := NumberText(b)], [])
  }

  /** `createColorNode`. */
  function CreateColorNode(parent: Node, name: string, c: Color): Node
    requires parent.Element?
  {
    AppendChild(parent, ColorElement(name, c))
  }

  /** A component attribute is absent, or present and a 32-bit decimal integer. */
  predicate ComponentOk(element: Node, q: QName) {
    HasAttributeNS(element, q) ==> ParseInt(AttributeNS(element, q)).Some?
  }

  /**
   * The component `readColorNode` passes to `setRgb`. An absent attribute
   * leaves the C++ local uninitialised; the model reads it as 0.
   */
  function Component(element: Node, q: QName): int {
    if HasAttributeNS(element, q) then ParseInt(AttributeNS(element, q)).GetOr(0) else 0
  }

  /**
   * `readColorNode`: succeeds when every component attribute present parses
   * as an int, and then sets the colour from them; on failure the colour it
   * was given is left alone.
   */
  function ReadColorNode(element: Node, value: Color): (r: (bool, Color))
    ensures r.0 <==> ComponentOk(element, RED) && ComponentOk(element, GREEN) && ComponentOk(element, BLUE)
    ensures r.0 ==> r.1.Rgb?
    ensures r.0 && HasAttributeNS(element, RED) ==> Some(r.1.red) == ParseInt(AttributeNS(element, RED))
    ensures r.0 && HasAttributeNS(element, GREEN) ==> Some(r.1.green) == ParseInt(AttributeNS(element, GREEN))
    ensures r.0 && HasAttributeNS(element, BLUE) ==> Some(r.1.blue) == ParseInt(AttributeNS(element, BLUE))
    ensures !r.0 ==> r.1 == value
  {
    if ComponentOk(element, RED) && ComponentOk(element, GREEN) && ComponentOk(element, BLUE) then
      (true, Rgb(Component(element, RED), Component(element, GREEN), Component(element, BLUE)))
    else
      (false, value)
  }

  /** What a written colour reads back as: itself, or black for the invalid colour. */
  function ReloadedColor(c: Color): (r: Color)
    ensures c.Rgb? ==> r == c
    ensures c.InvalidColor? ==> r == Rgb(0, 0, 0)
  {
    var (red, green, blue) := Components(c);
    Rgb(red, green, blue)
  }

  lemma ColorElementReads(name: string, c: Color, previous: Color)
    requires IsQtColor(c)
    ensures ReadColorNode(ColorElement(name, c), previous) == (true, ReloadedColor(c))
  {
    var (r, g, b) := Components(c);
    var e := ColorElement(name, c);
    assert e.attrs == map[RED := NumberText(r), GREEN := NumberText(g), BLUE := NumberText(b)];
    ComponentReads(e, RED, r);
    ComponentReads(e, GREEN, g);
    ComponentReads(e, BLUE, b);
  }

  /** A component attribute holding the decimal text of `n` is accepted and read as `n`. */
  lemma ComponentReads(element: Node, q: QName, n: int)
    requires element.Element? && q in element.attrs && element.attrs[q] == NumberText(n) && IsInt32(n)
    ensures ComponentOk(element, q) && HasAttributeNS(element, q) && Component(element, q) == n
  {
    ParseIntNumberText(n);
  }

  /** The element `createColorNode` appends reads back as the colour written (black for the invalid colour). */
  lemma ColorNodeRoundTrip(parent: Node, name: string, c: Color, previous: Color)
    requires parent.Element? && IsQtColor(c)
    ensures |CreateColorNode(parent, name, c).children| == |parent.children| + 1
    ensures ReadColorNode(CreateColorNode(parent, name, c).children[|parent.children|], previous) == (true, ReloadedColor(c))
  {
    assert CreateColorNode(parent, name, c).children[|parent.children|] == ColorElement(name, c);
    ColorElementReads(name, c, previous);
  }

  // ---------------------------------------------------------------
  // Colour maps as alternating Dataset and Color elements

  const DATASET := Tag("Dataset")
  const COLOR := Tag("Color")

  /** The children `createColorMapNode` writes: per entry, in key order, a Dataset element and a Color element. */
  function ColorMapChildren(m: QMap<Color>): (cs: seq<Node>)
    ensures |cs| == 2 * |m|
  {
    if m == [] then []
    else [LeafElement("Dataset", NumberText(m[0].0)), ColorElement("Color", m[0].1)] + ColorMapChildren(m[1..])
  }

  /** `createColorMapNode`. */
  function CreateColorMapNode(parent: Node, name: string, m: QMap<Color>): Node
    requires parent.Element?
  {
    AppendChild(parent, Element(Tag(name), map[], ColorMapChildren(m)))
  }

  /** The `uint` a C++ `int` converts to: the same value modulo 2^32. */
  function ToUint(n: int): (r: uint32)
    requires IsInt32(n)
    ensures 0 <= n ==> r == n
    ensures n < 0 ==> r == n + 0x1_0000_0000
  {
    n % 0x1_0000_0000
  }

  /**
   * What `readColorMapNode` does with the sibling nodes `cs`, with `cur` the
   * current dataset and `acc` the map so far: text nodes are skipped, a
   * Dataset element sets the current dataset when its text is an int, a
   * Color element inserts its colour (the invalid colour when it does not
   * read) under the current dataset, and any other element stops the walk
   * with failure, keeping what was inserted.
   */
  function ReadColorMapFrom(cs: seq<Node>, cur: int, acc: QMap<Color>): (r: (bool, QMap<Color>))
    requires IsInt32(cur) && Sorted(acc)
    ensures Sorted(r.1)
  {
    if cs == [] then (true, acc)
    else if cs[0].Text? then ReadColorMapFrom(cs[1..], cur, acc)
    else if cs[0].name == DATASET then ReadColorMapFrom(cs[1..], ReadIntNode(cs[0], cur).1, acc)
    else if cs[0].name == COLOR then
      ReadColorMapFrom(cs[1..], cur, Insert(acc, ToUint(cur), ReadColorNode(cs[0], InvalidColor).1))
    else (false, acc)
  }

  /**
   * `readColorMapNode`: walks the children of `element` in order with the
   * current dataset starting at -1, inserting into `value`.
   */
  method ReadColorMapNode(element: Node, value: QMap<Color>) returns (ok: bool, result: QMap<Color>)
    requires element.Element? && Sorted(value)
    ensures (ok, result) == ReadColorMapFrom(element.children, -1, value)
  {
    var cs := element.children;
    var curDataset := -1;
    result := value;
    var i := 0;
    while i < |cs|
      invariant 0 <= i <= |cs| && IsInt32(curDataset) && Sorted(result)
      invariant ReadColorMapFrom(cs[i..], curDataset, result) == ReadColorMapFrom(cs, -1, value)
    {
      DropOne(cs, i);
      var node := cs[i];
      if node.Element? {
        if node.name == DATASET {
          var read := ReadIntNode(node, curDataset);
          curDataset := read.1;
        } else if node.name == COLOR {
          var color := ReadColorNode(node, InvalidColor);
          result := Insert(result, ToUint(curDataset), color.1);
        } else {
          return false, result;
        }
      }
      i := i + 1;
    }
    DropNone(cs);
    return true, result;
  }

  /** The walk succeeds exactly when every element among `cs` is a Dataset or a Color element. */
  lemma {:induction false} ReadColorMapOk(cs: seq<Node>, cur: int, acc: QMap<Color>)
    requires IsInt32(cur) && Sorted(acc)
    ensures ReadColorMapFrom(cs, cur, acc).0 <==>
      forall i :: 0 <= i < |cs| && cs[i].Element? ==> cs[i].name == DATASET || cs[i].name == COLOR
  {
    if cs != [] {
      var next := if cs[0].Element? && cs[0].name == DATASET then ReadIntNode(cs[0], cur).1 else cur;
      var acc' := if cs[0].Element? && cs[0].name == COLOR && cs[0].name != DATASET
        then Insert(acc, ToUint(cur), ReadColorNode(cs[0], InvalidColor).1) else acc;
      ReadColorMapOk(cs[1..], next, acc');
      assert forall i :: 1 <= i < |cs| ==> cs[i] == cs[1..][i - 1];
    }
  }

  /** Keys an int can hold and colours Qt can hold: what `createColorMapNode` writes so that it reads back. */
  predicate Writable(m: QMap<Color>) {
    forall i :: 0 <= i < |m| ==> m[i].0 <= INT_MAX && IsQtColor(m[i].1)
  }

  /**
   * Reading the children written for `m` into `acc` succeeds, and leaves
   * every key of `m` mapped to its reloaded colour and every other key as
   * `acc` had it.
   */
  lemma {:induction false} ColorMapChildrenRead(m: QMap<Color>, cur: int, acc: QMap<Color>)
    requires Sorted(m) && Writable(m) && IsInt32(cur) && Sorted(acc)
    ensures ReadColorMapFrom(ColorMapChildren(m), cur, acc).0
    ensures forall k: uint32 :: Lookup(ReadColorMapFrom(ColorMapChildren(m), cur, acc).1, k) ==
                                if Lookup(m, k).Some? then Some(ReloadedColor(Lookup(m, k).value)) else Lookup(acc, k)
  {
    if m != [] {
      var (key, c) := m[0];
      var acc' := Insert(acc, key, ReloadedColor(c));
      EntryRead(key, c, ColorMapChildren(m[1..]), cur, acc);
      assert Above(m[1..], key);
      ColorMapChildrenRead(m[1..], key, acc');
      forall k: uint32
        ensures Lookup(ReadColorMapFrom(ColorMapChildren(m[1..]), key, acc').1, k) ==
                  if Lookup(m, k).Some? then Some(ReloadedColor(Lookup(m, k).value)) else Lookup(acc, k)
      {
        InsertLookup(acc, key, ReloadedColor(c), k);
        if k == key {
          LookupBelow(m[1..], key, k);
        }
      }
    }
  }

  /** One written entry, read: the Dataset element sets the current dataset, the Color element inserts under it. */
  lemma EntryRead(key: uint32, c: Color, rest: seq<Node>, cur: int, acc: QMap<Color>)
    requires key <= INT_MAX && IsQtColor(c) && IsInt32(cur) && Sorted(acc)
    ensures ReadColorMapFrom([LeafElement("Dataset", NumberText(key)), ColorElement("Color", c)] + rest, cur, acc) ==
            ReadColorMapFrom(rest, key, Insert(acc, key, ReloadedColor(c)))
  {
    var dataset := LeafElement("Dataset", NumberText(key));
    var color := ColorElement("Color", c);
    TwoThenRest(dataset, color, rest);
    TextOfLeaf(DATASET, map[], NumberText(key));
    ParseIntNumberText(key);
    assert ReadIntNode(dataset, cur) == (true, key as int);
    ColorElementReads("Color", c, InvalidColor);
  }

  /**
   * The element `createColorMapNode` appends, read back by
   * `readColorMapNode` into `value`, succeeds and holds every entry of the
   * written map with its reloaded colour; other keys keep what `value` had.
   */
  lemma ColorMapRoundTrip(parent: Node, name: string, m: QMap<Color>, value: QMap<Color>)
    requires parent.Element? && Sorted(m) && Writable(m) && Sorted(value)
    ensures |CreateColorMapNode(parent, name, m).children| == |parent.children| + 1
    ensures var written := CreateColorMapNode(parent, name, m).children[|parent.children|];
      written.Element? && ReadColorMapFrom(written.children, -1, value).0 &&
      forall k: uint32 :: Lookup(ReadColorMapFrom(written.children, -1, value).1, k) ==
        if Lookup(m, k).Some? then Some(ReloadedColor(Lookup(m, k).value)) else Lookup(value, k)
  {
    assert CreateColorMapNode(parent, name, m).children[|parent.children|] == Element(Tag(name), map[], ColorMapChildren(m));
    ColorMapChildrenRead(m, -1, value);
  }

  // ---------------------------------------------------------------
  // Chart values as one attribute

  const NO_VALUE := Tag("NoValue")
  const DOUBLE_VALUE := Tag("DoubleValue")
  const STRING_VALUE := Tag("StringValue")

  /**
   * The element `createChartValueNode` appends: a double as its decimal text
   * (`number` stands for `QString::number(double)`), a string as itself, and
   * anything else, date-times included, as "no value".
   */
  function ChartValueElement(name: string, data: ChartData, number: Double -> string): Node {
    Element(Tag(name),
      if data.IsDouble() then map[DOUBLE_VALUE := number(data.DoubleValue())]
      else if data.IsString() then map[STRING_VALUE := data.StringValue()]
      else map[NO_VALUE := "true"],
      [])
  }

  /** `createChartValueNode`. */
  function CreateChartValueNode(parent: Node, name: string, data: ChartData, number: Double -> string): Node
    requires parent.Element?
  {
    AppendChild(parent, ChartValueElement(name, data, number))
  }

  /**
   * `readChartValueNode` (`toDouble` stands for `QString::toDouble(&ok)`): a
   * NoValue attribute gives the empty value whatever else is there; otherwise
   * a DoubleValue attribute gives a double when its text converts, a
   * StringValue attribute a string, and without any of them the read fails.
   * A failed read leaves the value it was given alone.
   */
  function ReadChartValueNode(element: Node, value: ChartData, toDouble: string -> Option<Double>): (r: (bool, ChartData))
    ensures HasAttributeNS(element, NO_VALUE) ==> r == (true, Default())
    ensures !HasAttributeNS(element, NO_VALUE) && !HasAttributeNS(element, DOUBLE_VALUE) && !HasAttributeNS(element, STRING_VALUE)
      ==> r == (false, value)
    ensures r.0 && r.1.IsDouble() ==> toDouble(AttributeNS(element, DOUBLE_VALUE)) == Some(r.1.DoubleValue())
    ensures r.0 && r.1.IsString() ==> r.1.StringValue() == AttributeNS(element, STRING_VALUE)
    ensures !r.0 ==> r.1 == value
    ensures r.0 ==> !r.1.IsDateTime()
  {
    if HasAttributeNS(element, NO_VALUE) then (true, Default())
    else if HasAttributeNS(element, DOUBLE_VALUE) then
      match toDouble(AttributeNS(element, DOUBLE_VALUE))
      case Some(d) => (true, FromDouble(d))
      case None => (false, value)
    else if HasAttributeNS(element, STRING_VALUE) then (true, FromString(AttributeNS(element, STRING_VALUE)))
    else (false, value)
  }

  /**
   * The element `createChartValueNode` appends, read back: an empty value
   * and a string come back equal; a date-time comes back as the empty
   * value; a double comes back as whatever its decimal text converts to,
   * so equal when that text converts back exactly, and a failed conversion
   * leaves the value being read into alone.
   */
  lemma ChartValueRoundTrip(parent: Node, name: string, data: ChartData, value: ChartData,
                            number: Double -> string, toDouble: string -> Option<Double>)
    requires parent.Element?
    ensures |CreateChartValueNode(parent, name, data, number).children| == |parent.children| + 1
    ensures var r := ReadChartValueNode(CreateChartValueNode(parent, name, data, number).children[|parent.children|], value, toDouble);
      (!data.IsDouble() ==> r.0) &&
      (!data.HasValue() || data.IsString() ==> r.1.Equals(data)) &&
      (data.IsDateTime() ==> r.1 == Default()) &&
      (data.IsDouble() ==> (r.0 <==> toDouble(number(data.DoubleValue())).Some?)) &&
      (data.IsDouble() && r.0 ==> r.1 == FromDouble(toDouble(number(data.DoubleValue())).value)) &&
      (data.IsDouble() && toDouble(number(data.DoubleValue())) == Some(data.DoubleValue()) ==> r.1.Equals(data))
  {
    var e := ChartValueElement(name, data, number);
    assert CreateChartValueNode(parent, name, data, number).children[|parent.children|] == e;
    assert NO_VALUE != DOUBLE_VALUE && NO_VALUE != STRING_VALUE && DOUBLE_VALUE != STRING_VALUE by {
      assert |NO_VALUE.local| != |DOUBLE_VALUE.local|;
      assert |NO_VALUE.local| != |STRING_VALUE.local|;
      assert DOUBLE_VALUE.local[0] != STRING_VALUE.local[0];
    }
  }
}
