/** The MTU settings cell: an input cell that accepts digits, considers a
    trimmed integer in [1280, 1420] valid, and on focus loss submits the MTU,
    a null MTU for an empty field, or nothing. */
module MtuCellWidget {
  import opened Wrappers
  import opened KotlinText
  import opened InputCellWidget

  const MIN_MTU_VALUE: int := 1280
  const MAX_MTU_VALUE: int := 1420

  /** The keys `DigitsKeyListener()` accepts. */
  const DIGIT_KEYS: set<char> := set c: char | '0' <= c <= '9'

  /** The MTU a text stands for, as the `value` getter reads it. */
  function MtuOf(input: string): (r: Option<int>)
    ensures r.Some? ==> INT_MIN <= r.value <= INT_MAX
    ensures r.Some? ==> Trim(input) != []
  {
    ToIntOrNull(Trim(input))
  }

  /** The text the `value` setter writes. */
  function TextOf(value: Option<Int32>): (r: string)
    ensures r == [] <==> value.None?
    ensures value.Some? ==> (r[0] == '-' <==> value.value < 0)
  {
    match value
    case None => ""
    case Some(v) => IntToString(v)
  }

  function IsValidMtuInput(input: string): (r: bool)
    ensures r <==> exists n :: MtuOf(input) == Some(n) && MIN_MTU_VALUE <= n <= MAX_MTU_VALUE
  {
    var mtu := MtuOf(input);
    mtu.Some? && MIN_MTU_VALUE <= mtu.value <= MAX_MTU_VALUE
  }

  /** The `onSubmitText` handler of the cell. */
  function MtuSubmission(input: string): (r: Submission<int>)
    ensures r.Invoke? && r.argument.Some? <==> IsValidMtuInput(input)
    ensures r.Invoke? && r.argument.Some? ==> MtuOf(input) == r.argument
    ensures r == Invoke(None) <==> input == ""
    ensures r == NoInvoke <==> input != "" && !IsValidMtuInput(input)
  {
    var mtu := MtuOf(input);
    if mtu.Some? && MIN_MTU_VALUE <= mtu.value <= MAX_MTU_VALUE then Invoke(Some(mtu.value))
    else if input == "" then Invoke(None)
    else NoInvoke
  }

  /** The printed form of an `Int` is valid exactly when it is in range. */
  lemma ValidIffInRange(n: Int32)
    ensures IsValidMtuInput(IntToString(n)) <==> MIN_MTU_VALUE <= n <= MAX_MTU_VALUE
  {
    IntToStringRoundTrip(n);
  }

  /** Setting `value` and reading it back gives the value that was set. */
  lemma ValueRoundTrip(value: Option<Int32>)
    ensures MtuOf(TextOf(value)) == value
  {
    if value.Some? {
      IntToStringRoundTrip(value.value);
    }
  }

  /** Four digits at the end of `s`, read back as a number. */
  lemma FourDigits(s: string)
    requires |s| == 4 && AllDigits(s)
    ensures DigitsValue(s) == DigitValue(s[0]) * 1000 + DigitValue(s[1]) * 100 + DigitValue(s[2]) * 10 + DigitValue(s[3])
  {
    var s3, s2, s1 := s[..3], s[..2], s[..1];
    assert s3[..2] == s2 && s2[..1] == s1 && s1[..0] == [];
    assert DigitsValue(s1) == DigitValue(s[0]);
    assert DigitsValue(s2) == DigitValue(s[0]) * 10 + DigitValue(s[1]);
    assert DigitsValue(s3) == DigitsValue(s2) * 10 + DigitValue(s[2]);
  }

  lemma SubmitInRange()
    ensures MtuSubmission("1400") == Invoke(Some(1400))
  {
    assert Trim("1400") == "1400";
    FourDigits("1400");
  }

  lemma SubmitOutOfRange()
    ensures MtuSubmission("9999") == NoInvoke
  {
    assert Trim("9999") == "9999";
    FourDigits("9999");
  }

  lemma SubmitBlank()
    ensures MtuSubmission("   ") == NoInvoke
    ensures MtuSubmission("") == Invoke(None)
  {
    assert Trim("   ") == "";
  }

  class MtuCell {
    const cell: InputCell
    /** Whether an `onSubmitMtu` callback is registered. */
    var hasMtuHandler: bool
    /** The arguments `onSubmitMtu` has been invoked with, oldest first. */
    var mtuSubmitted: seq<Option<int>>

    constructor ()
      ensures fresh(cell) && cell.text == "" && !cell.hasFocus && cell.hasSubmitHandler
      ensures cell.isValidInput.Some? && forall s :: cell.isValidInput.value(s) == IsValidMtuInput(s)
      ensures cell.acceptedKeys == Some(DIGIT_KEYS) && cell.textColor == None && cell.submitted == []
      ensures !hasMtuHandler && mtuSubmitted == []
    {
      var c := new InputCell();
      c.acceptedKeys := Some(DIGIT_KEYS);
      c.isValidInput := Some(s => IsValidMtuInput(s));
      c.hasSubmitHandler := true;
      cell := c;
      hasMtuHandler := false;
      mtuSubmitted := [];
    }

    method SetMtuHandler(registered: bool)
      modifies this`hasMtuHandler
      ensures hasMtuHandler == registered
    {
      hasMtuHandler := registered;
    }

    /** The `value` getter. */
    method GetValue() returns (value: Option<int>)
      ensures value == MtuOf(cell.text)
      ensures value.Some? ==> INT_MIN <= value.value <= INT_MAX
    {
      value := MtuOf(cell.text);
    }

    /** The `value` setter: writes the number, or "" for null. */
    method SetValue(value: Option<Int32>)
      modifies cell`text, cell`textColor
      ensures cell.text == TextOf(value) && MtuOf(cell.text) == value
      ensures cell.textColor == Some(cell.ColorFor(cell.text))
    {
      ValueRoundTrip(value);
      match value
      case None => cell.SetText("");
      case Some(v) => cell.SetText(IntToString(v));
    }

    /** The cell's `onSubmitText` handler: at most one `onSubmitMtu` call. */
    method OnSubmitText(input: string)
      modifies this`mtuSubmitted
      ensures mtuSubmitted == old(mtuSubmitted) + Invocations(MtuSubmission(input), hasMtuHandler)
    {
      match MtuSubmission(input)
      case Invoke(mtu) =>
        if hasMtuHandler {
          mtuSubmitted := mtuSubmitted + [mtu];
        }
      case NoInvoke =>
    }

    /** A focus change of the cell's field, with the cell's own submit
        handler registered as `onSubmitText`. */
    method OnFocusChange(newHasFocus: bool)
      modifies cell`hasFocus, cell`submitted, this`mtuSubmitted
      ensures cell.hasFocus == newHasFocus
      ensures var lost := old(cell.hasFocus) && !newHasFocus && cell.hasSubmitHandler;
        && cell.submitted == old(cell.submitted) + (if lost then [cell.text] else [])
        && mtuSubmitted == old(mtuSubmitted) + (if lost then Invocations(MtuSubmission(cell.text), hasMtuHandler) else [])
    {
      var submitted := cell.OnFocusChange(newHasFocus);
      if submitted.Some? {
        OnSubmitText(submitted.value);
      }
    }
  }
}
