/** The custom DNS settings cell: an input cell that accepts hexadecimal
    digits, '.' and ':', considers a valid IP literal valid, and on focus
    loss submits the parsed address, a null address for an empty field, or
    nothing. */
module CustomDnsCellWidget {
  import opened Wrappers
  import opened Inet
  import opened InputCellWidget

  /** The key listener's accepted characters, as the source spells them. */
  const ACCEPTED_CHARS: string := "01234567890abcdefABCDEF.:"

  predicate IsHexDigit(c: char) {
    '0' <= c <= '9' || 'a' <= c <= 'f' || 'A' <= c <= 'F'
  }

  /** The accepted keys are exactly the hexadecimal digits of either case
      together with '.' and ':'. */
  lemma AcceptedCharsAreHexAndSeparators()
    ensures forall c :: c in ACCEPTED_CHARS <==> IsHexDigit(c) || c == '.' || c == ':'
  {
    forall c | IsHexDigit(c) || c == '.' || c == ':'
      ensures c in ACCEPTED_CHARS
    {
      var i := if '0' <= c <= '9' then c as int - '0' as int
               else if 'a' <= c <= 'f' then 11 + (c as int - 'a' as int)
               else if 'A' <= c <= 'F' then 17 + (c as int - 'A' as int)
               else if c == '.' then 23
               else 24;
      assert ACCEPTED_CHARS[i] == c;
    }
  }

  /** The `onSubmitText` handler of the cell. */
  function DnsSubmission(lib: AddressLibrary, input: string): (r: Submission<InetAddress>)
    ensures r.Invoke? && r.argument.Some? <==> lib.isValid(input)
    ensures r.Invoke? && r.argument.Some? ==> r.argument.value == lib.getByName(input)
    ensures r == Invoke(None) <==> !lib.isValid(input) && input == ""
    ensures r == NoInvoke <==> !lib.isValid(input) && input != ""
  {
    if lib.isValid(input) then Invoke(Some(lib.getByName(input)))
    else if input == "" then Invoke(None)
    else NoInvoke
  }

  class CustomDnsCell {
    const cell: InputCell
    const lib: AddressLibrary
    /** Whether an `onSubmitDnsServer` callback is registered. */
    var hasDnsHandler: bool
    /** The arguments `onSubmitDnsServer` has been invoked with, oldest first. */
    var dnsSubmitted: seq<Option<InetAddress>>

    constructor (lib: AddressLibrary)
      ensures this.lib == lib
      ensures fresh(cell) && cell.text == "" && !cell.hasFocus && cell.hasSubmitHandler
      ensures cell.isValidInput.Some? && forall s :: cell.isValidInput.value(s) == lib.isValid(s)
      ensures cell.acceptedKeys == Some(set c | c in ACCEPTED_CHARS) && cell.textColor == None && cell.submitted == []
      ensures !hasDnsHandler && dnsSubmitted == []
    {
      var c := new InputCell();
      c.acceptedKeys := Some(set c | c in ACCEPTED_CHARS);
      c.isValidInput := Some(s => lib.isValid(s));
      c.hasSubmitHandler := true;
      cell := c;
      this.lib := lib;
      hasDnsHandler := false;
      dnsSubmitted := [];
    }

    method SetDnsHandler(registered: bool)
      modifies this`hasDnsHandler
      ensures hasDnsHandler == registered
    {
      hasDnsHandler := registered;
    }

    /** The cell's `onSubmitText` handler: at most one `onSubmitDnsServer` call. */
    method OnSubmitText(input: string)
      modifies this`dnsSubmitted
      ensures dnsSubmitted == old(dnsSubmitted) + Invocations(DnsSubmission(lib, input), hasDnsHandler)
    {
      match DnsSubmission(lib, input)
      case Invoke(address) =>
        if hasDnsHandler {
          dnsSubmitted := dnsSubmitted + [address];
        }
      case NoInvoke =>
    }

    /** A focus change of the cell's field, with the cell's own submit
        handler registered as `onSubmitText`. */
    method OnFocusChange(newHasFocus: bool)
      modifies cell`hasFocus, cell`submitted, this`dnsSubmitted
      ensures cell.hasFocus == newHasFocus
      ensures var lost := old(cell.hasFocus) && !newHasFocus && cell.hasSubmitHandler;
        && cell.submitted == old(cell.submitted) + (if lost then [cell.text] else [])
        && dnsSubmitted == old(dnsSubmitted) + (if lost then Invocations(DnsSubmission(lib, cell.text), hasDnsHandler) else [])
    {
      var submitted := cell.OnFocusChange(newHasFocus);
      if submitted.Some? {
        OnSubmitText(submitted.value);
      }
    }
  }
}
