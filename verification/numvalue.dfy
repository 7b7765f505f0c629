/** The unit-aware numeric field `NumValue` and its `Number` / `Integer` flavours:
    unit-label parsing (`parse_units`), value normalisation (`_parse`), the choice of
    input widget (`_create_widget`) and the popover description rebuilt by `_update`.
    The unit library (pint) is passed in as a record of functions. */
module NumValue {
  import opened Wrappers

  /** A Python value handed to the field: `None`, an `int`, a `float`, a `str`, or an
      object of the unit library (a quantity or a unit). */
  datatype Arg<Q> = NoneArg | Int(i: int) | Float(r: real) | Text(s: string) | Obj(q: Q)

  /** What `ureg.parse_expression` makes of a value: it raises, yields a plain
      number, or yields a quantity. */
  datatype Parsed<Q> = Raises | PlainNumber(r: real) | Quantity(q: Q)

  /** The unit library as the field sees it, plus Python's rendering of a float. */
  datatype UnitLib<!Q> = UnitLib(
    unitsOf: Q -> Option<Q>,                // the `.units` attribute, `None` when missing
    parse: Arg<Q> -> Parsed<Q>,             // `ureg.parse_expression(...)`
    str: Q -> string,                       // `str(...)`
    latex: Q -> Option<string>,             // short LaTeX formatting (`~L`), `None` when it raises
    convert: (Q, Arg<Q>) -> Option<real>,   // `.to(units).magnitude`, `None` when it raises
    magnitude: Q -> real,                   // `.magnitude`
    truthy: Q -> bool,                      // `bool(...)`
    floatStr: real -> string                // `'%s' % f`
  )

  /** Python truthiness of a value. */
  predicate Truthy<Q>(lib: UnitLib<Q>, a: Arg<Q>) {
    match a
    case NoneArg => false
    case Int(i) => i != 0
    case Float(r) => r != 0.0
    case Text(s) => s != ""
    case Obj(q) => lib.truthy(q)
  }

  /** The value is the empty string (`x == ''`). */
  predicate IsEmptyText<Q>(a: Arg<Q>) {
    a.Text? && a.s == ""
  }

  // ---------------------------------------------------------------------------
  // Python's '%s' rendering
  // ---------------------------------------------------------------------------

  function DigitChar(d: nat): char
    requires d < 10
  {
    "0123456789"[d]
  }

  function NatString(n: nat): string
    decreases n
  {
    if n < 10 then [DigitChar(n)] else NatString(n / 10) + [DigitChar(n % 10)]
  }

  /** `'%s' % v`. */
  function Show<Q>(lib: UnitLib<Q>, a: Arg<Q>): string {
    match a
    case NoneArg => "None"
    case Int(i) => if i < 0 then "-" + NatString(-i) else NatString(i)
    case Float(r) => lib.floatStr(r)
    case Text(s) => s
    case Obj(q) => lib.str(q)
  }

  // ---------------------------------------------------------------------------
  // parse_units
  // ---------------------------------------------------------------------------

  predicate StartsWithBackslash(s: string) {
    |s| > 0 && s[0] == '\\'
  }

  /** A LaTeX label that is a command is put in math mode; any other label is kept. */
  function MathLabel(ul: string): (w: string)
    ensures !StartsWithBackslash(w)
    ensures w == ul <==> !StartsWithBackslash(ul)
    ensures w != ul ==> |w| == |ul| + 2 && w[0] == '$' && w[|w| - 1] == '$' && w[1..|w| - 1] == ul
  {
    if StartsWithBackslash(ul) then "$" + ul + "$" else ul
  }

  /** The text and the short LaTeX form of a unit, failing when the formatting raises. */
  function UnitStrings<Q>(lib: UnitLib<Q>, u: Q): Option<(string, string)> {
    match lib.latex(u)
    case None => None
    case Some(ul) => Some((lib.str(u), ul))
  }

  /** First attempt: `xpr.units`; only library objects can have that attribute. */
  function FromAttribute<Q>(lib: UnitLib<Q>, xpr: Arg<Q>): Option<(string, string)> {
    if xpr.Obj? then
      match lib.unitsOf(xpr.q)
      case None => None
      case Some(u) => UnitStrings(lib, u)
    else None
  }

  /** Second attempt: `ureg.parse_expression(xpr).units`; a plain number has no units. */
  function FromExpression<Q>(lib: UnitLib<Q>, xpr: Arg<Q>): Option<(string, string)> {
    match lib.parse(xpr)
    case Quantity(p) =>
      (match lib.unitsOf(p)
       case None => None
       case Some(u) => UnitStrings(lib, u))
    case _ => None
  }

  /** Third attempt: format `xpr` itself. The `~L` format specification is rejected
      by Python's own `str`, `int` and `float`, so only library objects get through. */
  function FromValue<Q>(lib: UnitLib<Q>, xpr: Arg<Q>): Option<(string, string)> {
    if xpr.Obj? then UnitStrings(lib, xpr.q) else None
  }

  /** The three attempts in order; the first that does not raise wins. */
  function UnitAttempts<Q>(lib: UnitLib<Q>, xpr: Arg<Q>): Option<(string, string)> {
    match FromAttribute(lib, xpr)
    case Some(p) => Some(p)
    case None =>
      match FromExpression(lib, xpr)
      case Some(p) => Some(p)
      case None => FromValue(lib, xpr)
  }

  /** `parse_units(xpr)`: the units text for the description and the label shown
      beside the input. */
  function ParseUnits<Q>(lib: UnitLib<Q>, xpr: Arg<Q>): (r: (Arg<Q>, Arg<Q>))
    ensures xpr.NoneArg? || IsEmptyText(xpr) ==> r == (Text(""), Text(""))
    ensures !xpr.NoneArg? && !IsEmptyText(xpr) && UnitAttempts(lib, xpr).None? ==> r == (xpr, xpr)
    ensures !xpr.NoneArg? && !IsEmptyText(xpr) && UnitAttempts(lib, xpr).Some? ==>
              r.0 == Text(UnitAttempts(lib, xpr).value.0)
              && r.1 == Text(MathLabel(UnitAttempts(lib, xpr).value.1))
              && !StartsWithBackslash(r.1.s)
    ensures !r.0.NoneArg?
  {
    if xpr.NoneArg? || IsEmptyText(xpr) then (Text(""), Text(""))
    else
      match UnitAttempts(lib, xpr)
      case None => (xpr, xpr)
      case Some((us, ul)) => (Text(us), Text(MathLabel(ul)))
  }

  /** A unit label is left starting with a backslash (outside math mode) only when
      every attempt failed and the label is the argument itself. */
  lemma LabelInMathMode<Q>(lib: UnitLib<Q>, xpr: Arg<Q>)
    ensures var r := ParseUnits(lib, xpr);
            r.1.Text? && StartsWithBackslash(r.1.s) ==> r == (xpr, xpr) && UnitAttempts(lib, xpr).None?
  {
  }

  /** A string argument never reaches the third attempt's success: its units come
      from parsing it, and a string the library cannot parse as a quantity is kept as
      both texts. */
  lemma ParseUnitsOfString<Q>(lib: UnitLib<Q>, s: string)
    requires s != ""
    ensures FromExpression(lib, Text(s)).None? ==> ParseUnits(lib, Text(s)) == (Text(s), Text(s))
    ensures FromExpression(lib, Text(s)).Some? ==>
              ParseUnits(lib, Text(s)).0 == Text(FromExpression(lib, Text(s)).value.0)
  {
  }

  // ---------------------------------------------------------------------------
  // _parse
  // ---------------------------------------------------------------------------

  /** `str(x)` for the values that reach the parser. */
  function StrOf<Q>(lib: UnitLib<Q>, x: Arg<Q>): string
    requires x.Text? || x.Obj?
  {
    if x.Text? then x.s else lib.str(x.q)
  }

  /** `_parse(x)` with the field's `units_str`: `None` and numbers pass through, a
      parsed quantity gives its magnitude (converted to `units_str` when that is
      truthy), a parsed plain number gives itself as a float, and whenever anything
      raises the argument comes back unchanged. */
  function Parse<Q>(lib: UnitLib<Q>, unitsStr: Arg<Q>, x: Arg<Q>): (y: Arg<Q>)
    ensures y.NoneArg? <==> x.NoneArg?
    ensures x.NoneArg? || x.Int? || x.Float? ==> y == x
    ensures y == x || y.Float?
    ensures x.Text? || x.Obj? ==>
              var p := lib.parse(Text(StrOf(lib, x)));
              && (p.Raises? ==> y == x)
              && (p.PlainNumber? ==> y == Float(p.r))
              && (p.Quantity? && !Truthy(lib, unitsStr) ==> y == Float(lib.magnitude(p.q)))
              && (p.Quantity? && Truthy(lib, unitsStr) && lib.convert(p.q, unitsStr).Some? ==>
                    y == Float(lib.convert(p.q, unitsStr).value))
              && (p.Quantity? && Truthy(lib, unitsStr) && lib.convert(p.q, unitsStr).None? ==> y == x)
  {
    match x
    case NoneArg => x
    case Int(_) => x
    case Float(_) => x
    case _ =>
      match lib.parse(Text(StrOf(lib, x)))
      case Raises => x
      case PlainNumber(r) => Float(r)
      case Quantity(p) =>
        if Truthy(lib, unitsStr) then
          (match lib.convert(p, unitsStr)
           case None => x
           case Some(m) => Float(m))
        else Float(lib.magnitude(p))
  }

  /** Normalising twice is normalising once. */
  lemma ParseIdempotent<Q>(lib: UnitLib<Q>, unitsStr: Arg<Q>, x: Arg<Q>)
    ensures Parse(lib, unitsStr, Parse(lib, unitsStr, x)) == Parse(lib, unitsStr, x)
  {
  }

  /** An example: a string such as "138 GPa" that the library reads as a quantity,
      with the field's units "gigapascal", becomes the converted magnitude 138. */
  lemma ParseConverts<Q>(lib: UnitLib<Q>, p: Q)
    requires lib.parse(Text("138 GPa")) == Quantity(p)
    requires lib.convert(p, Text("gigapascal")) == Some(138.0)
    ensures Parse(lib, Text("gigapascal"), Text("138 GPa")) == Float(138.0)
  {
  }

  /** For a text that the library reads as a quantity: without units the magnitude is
      taken as is, and with units a failed conversion keeps the text. */
  lemma ParseWithoutUnits<Q>(lib: UnitLib<Q>, unitsStr: Arg<Q>, s: string, p: Q)
    requires lib.parse(Text(s)) == Quantity(p)
    ensures !Truthy(lib, unitsStr) ==> Parse(lib, unitsStr, Text(s)) == Float(lib.magnitude(p))
    ensures Truthy(lib, unitsStr) && lib.convert(p, unitsStr).None? ==> Parse(lib, unitsStr, Text(s)) == Text(s)
  {
  }

  // ---------------------------------------------------------------------------
  // _create_widget
  // ---------------------------------------------------------------------------

  /** The ipywidgets input chosen for the field. */
  datatype Kind = BoundedIntText | IntText | BoundedFloatText | FloatText {
    predicate IsBounded() { this == BoundedIntText || this == BoundedFloatText }
    predicate IsInt() { this == BoundedIntText || this == IntText }
  }

  /** `_create_widget(ntype, value, min, max)`: bounds must come both or neither;
      `'int'` gives an integer input, any other type a float input. */
  function CreateWidget<Q>(ntype: string, min: Arg<Q>, max: Arg<Q>): (r: Result<Kind>)
    ensures r.Failure? <==> min.NoneArg? != max.NoneArg?
    ensures r.Failure? && !min.NoneArg? ==> r.error == "Min is set but not Max."
    ensures r.Failure? && min.NoneArg? ==> r.error == "Max is set but not Min."
    ensures r.Success? ==> (r.value.IsBounded() <==> !min.NoneArg?)
    ensures r.Success? ==> (r.value.IsInt() <==> ntype == "int")
  {
    if !min.NoneArg? && max.NoneArg? then Failure("Min is set but not Max.")
    else if min.NoneArg? && !max.NoneArg? then Failure("Max is set but not Min.")
    else if ntype == "int" then
      if !min.NoneArg? then Success(BoundedIntText) else Success(IntText)
    else if !min.NoneArg? then Success(BoundedFloatText) else Success(FloatText)
  }

  // ---------------------------------------------------------------------------
  // _update
  // ---------------------------------------------------------------------------

  const UnitsLead: string := "\nValues must be in units of "

  function UnitsNote<Q>(lib: UnitLib<Q>, unitsStr: Arg<Q>): string {
    UnitsLead + Show(lib, unitsStr) + "."
  }

  function BoundsNote<Q>(lib: UnitLib<Q>, min: Arg<Q>, max: Arg<Q>): string {
    "\nMin: " + Show(lib, min) + "\tMax: " + Show(lib, max) + "\n"
  }

  /** The popover text `_update` builds: the user's description, then a sentence
      naming the units unless they are `''`, then the bounds when `min` is set. */
  function Description<Q>(lib: UnitLib<Q>, desc: string, unitsStr: Arg<Q>, min: Arg<Q>, max: Arg<Q>): string {
    desc
    + (if !IsEmptyText(unitsStr) then UnitsNote(lib, unitsStr) else "")
    + (if !min.NoneArg? then BoundsNote(lib, min, max) else "")
  }

  /** The description starts with the user's text, and is that text alone when there
      are neither units nor bounds. */
  lemma DescriptionStartsWithDesc<Q>(lib: UnitLib<Q>, desc: string, unitsStr: Arg<Q>, min: Arg<Q>, max: Arg<Q>)
    ensures var d := Description(lib, desc, unitsStr, min, max);
            && |desc| <= |d| && d[..|desc|] == desc
            && (min.NoneArg? && IsEmptyText(unitsStr) ==> d == desc)
  {
    var u := if !IsEmptyText(unitsStr) then UnitsNote(lib, unitsStr) else "";
    var b := if !min.NoneArg? then BoundsNote(lib, min, max) else "";
    ThreeParts(desc, u, b);
  }

  /** The units sentence follows the user's text exactly when the units are not `''`. */
  lemma DescriptionNamesUnits<Q>(lib: UnitLib<Q>, desc: string, unitsStr: Arg<Q>, min: Arg<Q>, max: Arg<Q>)
    ensures var d := Description(lib, desc, unitsStr, min, max);
            |desc| <= |d| && (UnitsLead <= d[|desc|..] <==> !IsEmptyText(unitsStr))
  {
    var u := if !IsEmptyText(unitsStr) then UnitsNote(lib, unitsStr) else "";
    var b := if !min.NoneArg? then BoundsNote(lib, min, max) else "";
    ThreeParts(desc, u, b);
    if IsEmptyText(unitsStr) {
      assert u + b == b;
      if b != "" {
        BoundsNoteStart(lib, min, max);
        UnitsLeadStart();
      }
    } else {
      assert u + b == UnitsLead + (Show(lib, unitsStr) + "." + b);
    }
  }

  /** The bounds close the description whenever `min` is set. */
  lemma DescriptionEndsWithBounds<Q>(lib: UnitLib<Q>, desc: string, unitsStr: Arg<Q>, min: Arg<Q>, max: Arg<Q>)
    requires !min.NoneArg?
    ensures var d := Description(lib, desc, unitsStr, min, max);
            var b := BoundsNote(lib, min, max);
            |b| <= |d| && d[|d| - |b|..] == b
  {
    var u := if !IsEmptyText(unitsStr) then UnitsNote(lib, unitsStr) else "";
    ThreeParts(desc, u, BoundsNote(lib, min, max));
  }

  lemma BoundsNoteStart<Q>(lib: UnitLib<Q>, min: Arg<Q>, max: Arg<Q>)
    ensures |BoundsNote(lib, min, max)| > 1 && BoundsNote(lib, min, max)[1] == 'M'
  {
    var m := "\nMin: ";
    assert m[1] == 'M';
    assert BoundsNote(lib, min, max) == m + (Show(lib, min) + "\tMax: " + Show(lib, max) + "\n");
  }

  lemma UnitsLeadStart()
    ensures |UnitsLead| > 1 && UnitsLead[1] == 'V'
  {
  }

  /** Where the three pieces of a concatenation sit. */
  lemma ThreeParts(a: string, u: string, b: string)
    ensures var d := a + u + b;
            && d[..|a|] == a && d[|a|..] == u + b && d[|d| - |b|..] == b
  {
    var d := a + u + b;
    assert d[..|a|] == a;
    assert d[|a|..] == u + b;
    assert d[|d| - |b|..] == b;
  }

  /** While `min` is unset the description does not mention `max`, so setting only
      `max` leaves the popover unchanged. */
  lemma DescriptionIgnoresMax<Q>(lib: UnitLib<Q>, desc: string, unitsStr: Arg<Q>, max1: Arg<Q>, max2: Arg<Q>)
    ensures Description(lib, desc, unitsStr, NoneArg, max1) == Description(lib, desc, unitsStr, NoneArg, max2)
  {
  }

  /** The HTML of the label: a popover carrying the description around the name. */
  function Popup(desc: string, name: string): string {
    "<div data-toggle=\"popover\" title=\"" + desc + "\" data-container=\"body\">" + name + "</div>"
  }

  // ---------------------------------------------------------------------------
  // The field
  // ---------------------------------------------------------------------------

  class NumValue<Q> {
    const lib: UnitLib<Q>
    const name: string
    /** The description given by the caller (`desc`, else `description`). */
    const desc: string
    const unitsStr: Arg<Q>
    const unitsTex: Arg<Q>
    const kind: Kind
    /** The inner widget's traits. */
    var value: Arg<Q>
    var min: Arg<Q>
    var max: Arg<Q>
    var disabled: bool
    /** The value of the HTML label and of the HTMLMath unit label. */
    var labelHtml: string
    var unitLabel: Arg<Q>

    /** The labels show the current state. */
    ghost predicate Valid()
      reads this
    {
      && labelHtml == Popup(Description(lib, desc, unitsStr, min, max), name)
      && unitLabel == unitsTex
    }

    constructor(lib: UnitLib<Q>, name: string, desc: string, unitsStr: Arg<Q>, unitsTex: Arg<Q>,
                kind: Kind, value: Arg<Q>, min: Arg<Q>, max: Arg<Q>, disabled: bool)
      ensures Valid()
      ensures this.lib == lib && this.name == name && this.desc == desc
      ensures this.unitsStr == unitsStr && this.unitsTex == unitsTex && this.kind == kind
      ensures this.value == value && this.min == min && this.max == max && this.disabled == disabled
    {
      this.lib, this.name, this.desc := lib, name, desc;
      this.unitsStr, this.unitsTex, this.kind := unitsStr, unitsTex, kind;
      this.value, this.min, this.max, this.disabled := value, min, max, disabled;
      this.labelHtml, this.unitLabel := "", unitsTex;
      new;
      Update();
    }

    /** `NumValue(ntype, name, value, **kwargs)`: parses the units, normalises the
        bounds and the value against them, and picks the widget; fails exactly when
        one bound is given without the other. */
    static method Create(lib: UnitLib<Q>, ntype: string, name: string, value: Arg<Q>,
                         descKw: string, descriptionKw: string, units: Arg<Q>,
                         min: Arg<Q>, max: Arg<Q>, disabled: bool)
      returns (r: Result<NumValue<Q>>)
      ensures r.Failure? <==> min.NoneArg? != max.NoneArg?
      ensures r.Success? ==>
                var (us, ut) := ParseUnits(lib, units);
                && fresh(r.value) && r.value.Valid()
                && r.value.desc == (if descKw == "" then descriptionKw else descKw)
                && r.value.unitsStr == us && r.value.unitsTex == ut
                && r.value.min == Parse(lib, us, min) && r.value.max == Parse(lib, us, max)
                && r.value.value == Parse(lib, us, value)
                && (r.value.kind.IsInt() <==> ntype == "int")
                && (r.value.kind.IsBounded() <==> !min.NoneArg?)
                && r.value.disabled == disabled && r.value.name == name
    {
      var d := if descKw == "" then descriptionKw else descKw;
      var (us, ut) := ParseUnits(lib, units);
      var lo := Parse(lib, us, min);
      var hi := Parse(lib, us, max);
      var v := Parse(lib, us, value);
      var k := CreateWidget(ntype, lo, hi);
      if k.Failure? {
        return Failure(k.error);
      }
      var w := new NumValue(lib, name, d, us, ut, k.value, v, lo, hi, disabled);
      return Success(w);
    }

    /** `Number(name, value, ...)`: a float field. */
    static method Number(lib: UnitLib<Q>, name: string, value: Arg<Q>, descKw: string,
                         descriptionKw: string, units: Arg<Q>, min: Arg<Q>, max: Arg<Q>,
                         disabled: bool)
      returns (r: Result<NumValue<Q>>)
      ensures r.Failure? <==> min.NoneArg? != max.NoneArg?
      ensures r.Success? ==>
                var (us, ut) := ParseUnits(lib, units);
                && fresh(r.value) && r.value.Valid() && !r.value.kind.IsInt()
                && r.value.desc == (if descKw == "" then descriptionKw else descKw)
                && r.value.unitsStr == us && r.value.unitsTex == ut
                && r.value.min == Parse(lib, us, min) && r.value.max == Parse(lib, us, max)
                && r.value.value == Parse(lib, us, value)
                && (r.value.kind.IsBounded() <==> !min.NoneArg?)
                && r.value.disabled == disabled && r.value.name == name
    {
      r := Create(lib, "float", name, value, descKw, descriptionKw, units, min, max, disabled);
    }

    /** `Integer(name, value, ...)`: an integer field. */
    static method Integer(lib: UnitLib<Q>, name: string, value: Arg<Q>, descKw: string,
                          descriptionKw: string, units: Arg<Q>, min: Arg<Q>, max: Arg<Q>,
                          disabled: bool)
      returns (r: Result<NumValue<Q>>)
      ensures r.Failure? <==> min.NoneArg? != max.NoneArg?
      ensures r.Success? ==>
                var (us, ut) := ParseUnits(lib, units);
                && fresh(r.value) && r.value.Valid() && r.value.kind.IsInt()
                && r.value.desc == (if descKw == "" then descriptionKw else descKw)
                && r.value.unitsStr == us && r.value.unitsTex == ut
                && r.value.min == Parse(lib, us, min) && r.value.max == Parse(lib, us, max)
                && r.value.value == Parse(lib, us, value)
                && (r.value.kind.IsBounded() <==> !min.NoneArg?)
                && r.value.disabled == disabled && r.value.name == name
    {
      r := Create(lib, "int", name, value, descKw, descriptionKw, units, min, max, disabled);
    }

    /** `_update()`: rebuilds the description piece by piece and refreshes both labels. */
    method Update()
      modifies this
      ensures Valid()
      ensures value == old(value) && min == old(min) && max == old(max) && disabled == old(disabled)
    {
      var d := desc;
      if !IsEmptyText(unitsStr) {
        d := d + UnitsNote(lib, unitsStr);
      }
      assert d == desc + (if !IsEmptyText(unitsStr) then UnitsNote(lib, unitsStr) else "");
      if !min.NoneArg? {
        d := d + BoundsNote(lib, min, max);
      }
      assert d == Description(lib, desc, unitsStr, min, max);
      labelHtml := Popup(d, name);
      unitLabel := unitsTex;
    }

    /** The `min` setter: stores the bound as given and rebuilds the labels. */
    method SetMin(val: Arg<Q>)
      modifies this
      ensures min == val && max == old(max) && value == old(value) && disabled == old(disabled)
      ensures Valid()
    {
      min := val;
      Update();
    }

    /** The `max` setter: stores the bound as given and rebuilds the labels. */
    method SetMax(val: Arg<Q>)
      modifies this
      ensures max == val && min == old(min) && value == old(value) && disabled == old(disabled)
      ensures Valid()
    {
      max := val;
      Update();
    }
  }
}
