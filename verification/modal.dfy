/** The dialog's primary-button resolution (`Modal.check_primary`): a button label or
    a button index goes in, the index of the highlighted button or an error comes out. */
module Modal {
  import opened Wrappers

  /** The Python values a caller may pass as `primary` or list as `buttons`. */
  datatype PyValue = NoneValue | Bool(b: bool) | Int(i: int) | Float(r: real) | Str(s: string)

  predicate IsNumeric(v: PyValue) {
    v.Bool? || v.Int? || v.Float?
  }

  /** The numeric value of a `bool`, `int` or `float` (`True == 1`). */
  function NumericValue(v: PyValue): real
    requires IsNumeric(v)
  {
    match v
    case Bool(b) => if b then 1.0 else 0.0
    case Int(i) => i as real
    case Float(r) => r
  }

  /** Python's `==` between two such values: numbers compare by value across `bool`,
      `int` and `float`; strings by content; `None` only equals `None`. */
  predicate PyEq(a: PyValue, b: PyValue) {
    if IsNumeric(a) && IsNumeric(b) then NumericValue(a) == NumericValue(b)
    else if a.Str? && b.Str? then a.s == b.s
    else a.NoneValue? && b.NoneValue?
  }

  /** `p in buttons`. */
  predicate Contains(buttons: seq<PyValue>, p: PyValue) {
    exists k :: 0 <= k < |buttons| && PyEq(buttons[k], p)
  }

  /** `buttons.index(p)`: the position of the first element equal to `p`. */
  function IndexOf(buttons: seq<PyValue>, p: PyValue): (k: nat)
    requires Contains(buttons, p)
    ensures k < |buttons| && PyEq(buttons[k], p)
    ensures forall j :: 0 <= j < k ==> !PyEq(buttons[j], p)
  {
    if PyEq(buttons[0], p) then 0
    else
      assert Contains(buttons[1..], p) by {
        var k :| 0 <= k < |buttons| && PyEq(buttons[k], p);
        assert k > 0 && PyEq(buttons[1..][k - 1], p);
      }
      1 + IndexOf(buttons[1..], p)
  }

  const PrimaryError: string := "Primary must by an index or button string."

  /** `check_primary(p)`. The type test `type(p) == int` admits a genuine `int` only,
      not a `bool`. */
  function CheckPrimary(buttons: seq<PyValue>, p: PyValue): (r: Result<nat>)
    ensures r.Success? ==> r.value < |buttons|
    ensures Contains(buttons, p) ==>
              r.Success? && PyEq(buttons[r.value], p)
              && forall j :: 0 <= j < r.value ==> !PyEq(buttons[j], p)
    ensures !Contains(buttons, p) && p.Int? && 0 <= p.i < |buttons| ==> r == Success(p.i)
    ensures r.Failure? ==> r.error == PrimaryError
  {
    if Contains(buttons, p) then Success(IndexOf(buttons, p))
    else if p.Int? && 0 <= p.i < |buttons| then Success(p.i)
    else Failure(PrimaryError)
  }

  /** `check_primary` fails exactly when `p` is neither a button nor an `int` index
      into the buttons. */
  lemma CheckPrimaryFails(buttons: seq<PyValue>, p: PyValue)
    ensures CheckPrimary(buttons, p).Failure? <==>
              !Contains(buttons, p) && !(p.Int? && 0 <= p.i < |buttons|)
  {
  }

  /** A label is looked up before an index is considered: with the buttons
      `['Cancel', 0]`, asking for `0` selects the second button, not the first. */
  lemma LabelBeforeIndex()
    ensures CheckPrimary([Str("Cancel"), Int(0)], Int(0)) == Success(1)
  {
    assert PyEq([Str("Cancel"), Int(0)][1], Int(0));
  }

  /** `True` is not an index: with the buttons `['OK', 'Cancel']` it is rejected,
      although `1` selects 'Cancel'. */
  lemma BoolIsNotAnIndex()
    ensures CheckPrimary([Str("OK"), Str("Cancel")], Bool(true)).Failure?
    ensures CheckPrimary([Str("OK"), Str("Cancel")], Int(1)) == Success(1)
  {
  }

  /** `True` still selects a button it equals, since `True == 1`. */
  lemma BoolMatchesOne()
    ensures CheckPrimary([Int(0), Int(1)], Bool(true)) == Success(1)
  {
    assert PyEq([Int(0), Int(1)][1], Bool(true));
  }

  /** The dialog's defaults: the single button 'OK' and the primary 'OK'. */
  const DefaultButtons: seq<PyValue> := [Str("OK")]
  const DefaultPrimary: PyValue := Str("OK")

  /** The default dialog highlights its only button. */
  lemma DefaultPrimaryIsFirst()
    ensures CheckPrimary(DefaultButtons, DefaultPrimary) == Success(0)
  {
    assert PyEq(DefaultButtons[0], DefaultPrimary);
  }
}
