/** The generic settings input cell of the Android app: a text field with an
    optional validity predicate, which only colours the text, and an optional
    submit callback, which fires when the field loses focus.

    Callbacks are modelled by whether one is registered and by a log of the
    arguments they were invoked with. */
module InputCellWidget {
  import opened Wrappers

  datatype TextColor = ValidColor | InvalidColor

  /** What a cell's submit handler does with the submitted text: invoke its
      callback with a value or with null, or invoke nothing. */
  datatype Submission<+T> = Invoke(argument: Option<T>) | NoInvoke

  /** The log entries a submission adds when the callback is registered. */
  function Invocations<T>(submission: Submission<T>, registered: bool): (r: seq<Option<T>>)
    ensures |r| <= 1
    ensures r != [] <==> registered && submission.Invoke?
    ensures r != [] ==> r[0] == submission.argument
  {
    if registered && submission.Invoke? then [submission.argument] else []
  }

  class InputCell {
    var text: string
    /** Only `OnFocusChange` writes this field: the source's setter is private
        and only the focus listener calls it. */
    var hasFocus: bool
    var isValidInput: Option<string -> bool>
    /** Whether an `onSubmitText` callback is registered. */
    var hasSubmitHandler: bool
    /** The colour picked by the last text change; `None` before the first. */
    var textColor: Option<TextColor>
    /** The keys the field's key listener accepts; `None` accepts any key. */
    var acceptedKeys: Option<set<char>>
    /** The arguments `onSubmitText` has been invoked with, oldest first. */
    var submitted: seq<string>

    constructor ()
      ensures !hasFocus && text == "" && isValidInput == None && !hasSubmitHandler
      ensures textColor == None && acceptedKeys == None && submitted == []
    {
      text := "";
      hasFocus := false;
      isValidInput := None;
      hasSubmitHandler := false;
      textColor := None;
      acceptedKeys := None;
      submitted := [];
    }

    /** The colour the text watcher picks for a text. */
    function ColorFor(t: string): (c: TextColor)
      reads this`isValidInput
      ensures c == ValidColor <==> isValidInput.None? || isValidInput.value(t)
    {
      match isValidInput
      case None => ValidColor
      case Some(valid) => if valid(t) then ValidColor else InvalidColor
    }

    /** The text watcher, run after every change of the text. */
    method AfterTextChanged()
      modifies this`textColor
      ensures textColor == Some(ColorFor(text))
    {
      textColor := Some(ColorFor(text));
    }

    /** The `text` setter writes the field, which notifies the text watcher. */
    method SetText(value: string)
      modifies this`text, this`textColor
      ensures text == value && textColor == Some(ColorFor(value))
    {
      text := value;
      AfterTextChanged();
    }

    /** A key typed at the end of the text: kept only if the key listener
        accepts it; a kept key changes the text and runs the text watcher. */
    method TypeKey(key: char) returns (accepted: bool)
      modifies this`text, this`textColor
      ensures accepted <==> acceptedKeys.None? || key in acceptedKeys.value
      ensures text == if accepted then old(text) + [key] else old(text)
      ensures textColor == if accepted then Some(ColorFor(text)) else old(textColor)
    {
      accepted := acceptedKeys.None? || key in acceptedKeys.value;
      if accepted {
        SetText(text + [key]);
      }
    }

    method SetIsValidInput(valid: Option<string -> bool>)
      modifies this`isValidInput
      ensures isValidInput == valid
    {
      isValidInput := valid;
    }

    method SetSubmitHandler(registered: bool)
      modifies this`hasSubmitHandler
      ensures hasSubmitHandler == registered
    {
      hasSubmitHandler := registered;
    }

    /** The focus listener. The observable `hasFocus` invokes `onSubmitText`
        with the current text exactly when focus goes from true to false;
        the text it was invoked with is returned. */
    method OnFocusChange(newHasFocus: bool) returns (submittedText: Option<string>)
      modifies this`hasFocus, this`submitted
      ensures hasFocus == newHasFocus
      ensures submittedText.Some? <==> old(hasFocus) && !newHasFocus && hasSubmitHandler
      ensures submittedText.Some? ==> submittedText.value == text
      ensures submitted == old(submitted) + (if submittedText.Some? then [text] else [])
    {
      var oldValue := hasFocus;
      hasFocus := newHasFocus;
      submittedText := None;
      if oldValue && !newHasFocus && hasSubmitHandler {
        submitted := submitted + [text];
        submittedText := Some(text);
      }
    }
  }
}
