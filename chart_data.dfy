/**
 * KDChartData (kchart/kdchart/KDChartData.h): one chart value, a tagged
 * variant of "no value", a string, a double or a date-time. The C++ object
 * keeps a payload slot per kind next to the tag, so it is modelled the same
 * way: the tag decides which slot the accessors report.
 */
module ChartValues {
  import opened Base

  datatype ValueType = NoValue | StringType | DoubleType | DateTimeType

  /**
   * The double slot of a value built without a double is left uninitialised
   * by the C++ constructors; it is unobservable through the accessors, and the
   * model fills it with this constant.
   */
  const UnsetDouble: Double := Double(0)

  datatype ChartData = ChartData(valueType: ValueType, dtValue: DateTime, dValue: Double, sValue: string) {

    predicate HasValue() {
      valueType != NoValue
    }

    predicate IsString() {
      valueType == StringType
    }

    predicate IsDouble() {
      valueType == DoubleType
    }

    predicate IsDateTime() {
      valueType == DateTimeType
    }

    /** The string, or the null string (modelled as "") for any other kind. */
    function StringValue(): string {
      if IsString() then sValue else ""
    }

    /** The double, or MINDOUBLE for any other kind. */
    function DoubleValue(): Double {
      if IsDouble() then dValue else MINDOUBLE
    }

    /** The date-time, or an invalid date-time for any other kind. */
    function DateTimeValue(): DateTime {
      if IsDateTime() then dtValue else InvalidDateTime
    }

    /** `operator==`: same presence, same kind, and the same payload as the accessors report it. */
    predicate Equals(it: ChartData) {
      var sameness := HasValue() == it.HasValue();
      if sameness && HasValue() then
        valueType == it.valueType &&
        match valueType
        case StringType => StringValue() == it.StringValue()
        case DoubleType => DoubleValue() == it.DoubleValue()
        case DateTimeType => DateTimeValue() == it.DateTimeValue()
        case NoValue => false
      else
        sameness
    }

    /** `clearValue()`: only the tag is reset; the payload slots keep what they held. */
    function ClearValue(): (r: ChartData)
      ensures !r.HasValue()
      ensures r.sValue == sValue && r.dValue == dValue && r.dtValue == dtValue
    {
      this.(valueType := NoValue)
    }
  }

  /** `KDChartData()`. */
  function Default(): (r: ChartData)
    ensures !r.HasValue() && r.StringValue() == "" && r.DoubleValue() == MINDOUBLE
  {
    ChartData(NoValue, InvalidDateTime, UnsetDouble, "")
  }

  /** `KDChartData(double)`. */
  function FromDouble(d: Double): (r: ChartData)
    ensures r.HasValue() && r.IsDouble() && r.DoubleValue() == d
    ensures r.StringValue() == "" && r.DateTimeValue() == InvalidDateTime
  {
    ChartData(DoubleType, InvalidDateTime, d, "")
  }

  /** `KDChartData(const QString&)`. */
  function FromString(s: string): (r: ChartData)
    ensures r.HasValue() && r.IsString() && r.StringValue() == s
    ensures r.DoubleValue() == MINDOUBLE && r.DateTimeValue() == InvalidDateTime
  {
    ChartData(StringType, InvalidDateTime, UnsetDouble, s)
  }

  /** A value has a value exactly when it is of one, and only one, of the three payload kinds. */
  lemma ExactlyOneKind(x: ChartData)
    ensures x.HasValue() <==> x.IsString() || x.IsDouble() || x.IsDateTime()
    ensures !(x.IsString() && x.IsDouble()) && !(x.IsString() && x.IsDateTime())
    ensures !(x.IsDouble() && x.IsDateTime())
  {
  }

  /** Accessors for the wrong kind return the documented defaults. */
  lemma WrongKindDefaults(x: ChartData)
    ensures !x.IsString() ==> x.StringValue() == ""
    ensures !x.IsDouble() ==> x.DoubleValue() == MINDOUBLE
    ensures !x.IsDateTime() ==> x.DateTimeValue() == InvalidDateTime
  {
  }

  /**
   * What `operator==` promises: equal values agree on presence and kind, all
   * value-less values are equal whatever their slots hold, and strings and
   * doubles compare by what their accessors report.
   */
  lemma EqualsMeaning(a: ChartData, b: ChartData)
    ensures a.Equals(b) ==> a.HasValue() == b.HasValue()
    ensures a.Equals(b) && a.HasValue() ==> a.valueType == b.valueType
    ensures !a.HasValue() && !b.HasValue() ==> a.Equals(b)
    ensures a.IsString() && b.IsString() ==> (a.Equals(b) <==> a.StringValue() == b.StringValue())
    ensures a.IsDouble() && b.IsDouble() ==> (a.Equals(b) <==> a.DoubleValue() == b.DoubleValue())
    ensures a.IsDateTime() && b.IsDateTime() ==> (a.Equals(b) <==> a.DateTimeValue() == b.DateTimeValue())
  {
  }

  /** With doubles compared by bit pattern, `operator==` is an equivalence. */
  lemma EqualsIsEquivalence(a: ChartData, b: ChartData, c: ChartData)
    ensures a.Equals(a)
    ensures a.Equals(b) ==> b.Equals(a)
    ensures a.Equals(b) && b.Equals(c) ==> a.Equals(c)
  {
  }

  /** After `clearValue()` a value equals a default-constructed one. */
  lemma ClearedEqualsDefault(x: ChartData)
    ensures x.ClearValue().Equals(Default())
    ensures x.ClearValue().StringValue() == "" && x.ClearValue().DoubleValue() == MINDOUBLE
  {
  }
}
