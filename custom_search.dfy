/**
 * The search box shared by the dashboard and the token tables. It is a
 * controlled input: the parent owns the text, and the box reports trimmed
 * text back through its callbacks.
 */
module CustomSearch {
  import opened Common
  import opened Text

  /** A call the box makes into its parent. */
  datatype Callback = OnChange(text: string) | OnSearch(text: string) | OnClear

  /** Typing forwards the new text, trimmed, to `onChange`. */
  function InputChange(typed: string): seq<Callback> {
    [OnChange(Trim(typed))]
  }

  /** Enter searches for the trimmed value; any other key does nothing. */
  function KeyPress(value: string, key: string): seq<Callback> {
    if key == "Enter" then [OnSearch(Trim(value))] else []
  }

  /** The search button searches for the trimmed value. */
  function SearchClick(value: string): seq<Callback> {
    [OnSearch(Trim(value))]
  }

  /** The clear button empties the text, then calls `onClear` when the parent gave one. */
  function ClearClick(hasOnClear: bool): seq<Callback> {
    [OnChange("")] + (if hasOnClear then [OnClear] else [])
  }

  /** Leaving the box reports the trimmed value, but only when trimming changes it. */
  function BlurCallbacks(value: string): seq<Callback> {
    if value != Trim(value) then [OnChange(Trim(value))] else []
  }

  /** The clear button is shown for any non-empty value, white space included. */
  predicate ShowsClear(value: string) {
    value != ""
  }

  /** The border colour: red for an error, blue while focused, grey otherwise. */
  datatype Border = ErrorBorder | FocusBorder | IdleBorder

  function BorderOf(error: Option<string>, isFocused: bool): (b: Border)
    ensures b == ErrorBorder <==> error.Some? && error.value != ""
    ensures b == FocusBorder <==> (error.None? || error.value == "") && isFocused
  {
    if error.Some? && error.value != "" then ErrorBorder
    else if isFocused then FocusBorder
    else IdleBorder
  }

  /** A text the box reports: it neither starts nor ends with white space. */
  predicate Trimmed(s: string) {
    s == [] || (!IsSpace(s[0]) && !IsSpace(s[|s| - 1]))
  }

  /** Every text in these calls is trimmed. */
  predicate AllTrimmed(calls: seq<Callback>) {
    forall i :: 0 <= i < |calls| && !calls[i].OnClear? ==> Trimmed(calls[i].text)
  }

  lemma TrimIsTrimmed(s: string)
    ensures Trimmed(Trim(s))
  {
    TrimIsInnerPiece(s);
  }

  /** A single report of a trimmed text is all trimmed. */
  lemma OneTrimmedCall(s: string)
    requires Trimmed(s)
    ensures AllTrimmed([OnChange(s)]) && AllTrimmed([OnSearch(s)])
  {
  }

  /** Typing reports trimmed text only. */
  lemma InputChangeIsTrimmed(typed: string)
    ensures AllTrimmed(InputChange(typed))
  {
    TrimIsTrimmed(typed);
    OneTrimmedCall(Trim(typed));
  }

  /** Leaving the box reports trimmed text only. */
  lemma BlurIsTrimmed(value: string)
    ensures AllTrimmed(BlurCallbacks(value))
  {
    TrimIsTrimmed(value);
    OneTrimmedCall(Trim(value));
  }

  /** Enter and the search button search for trimmed text only, and clearing reports the empty text. */
  lemma SearchesAreTrimmed(value: string, key: string, hasOnClear: bool)
    ensures AllTrimmed(KeyPress(value, key))
    ensures AllTrimmed(SearchClick(value))
    ensures AllTrimmed(ClearClick(hasOnClear))
  {
    TrimIsTrimmed(value);
    OneTrimmedCall(Trim(value));
    assert Trimmed("");
  }

  /** Blur reports something exactly when the value starts or ends with white space. */
  lemma BlurReportsIffPadded(value: string)
    ensures BlurCallbacks(value) != [] <==> value != [] && (IsSpace(value[0]) || IsSpace(value[|value| - 1]))
  {
    var a := TrimStart(value);
    if value != [] && IsSpace(value[0]) {
      assert |a| < |value|;
      assert |Trim(value)| < |value|;
    } else if value != [] && IsSpace(value[|value| - 1]) {
      assert a == value;
      assert |Trim(value)| < |value|;
    } else {
      assert a == value;
      assert TrimEnd(a) == value;
    }
  }

  /**
   * With a parent that stores what `onChange` reports, typing and then
   * leaving the box reports nothing more, and searching afterwards searches
   * for exactly the stored text.
   */
  lemma TypedThenBlurred(typed: string)
    ensures var stored := InputChange(typed)[0].text;
      && BlurCallbacks(stored) == []
      && SearchClick(stored) == [OnSearch(stored)]
      && KeyPress(stored, "Enter") == [OnSearch(stored)]
  {
    TrimIdempotent(typed);
  }

  /** The box's own state: whether it has the focus. */
  class SearchBox {
    var isFocused: bool

    constructor ()
      ensures !isFocused
    {
      isFocused := false;
    }

    method Focus()
      modifies this
      ensures isFocused
    {
      isFocused := true;
    }

    /** Leaving the box drops the focus and reports what `BlurCallbacks` says. */
    method Blur(value: string) returns (calls: seq<Callback>)
      modifies this
      ensures !isFocused
      ensures calls == BlurCallbacks(value)
      ensures |calls| <= 1
    {
      isFocused := false;
      calls := [];
      if value != Trim(value) {
        calls := [OnChange(Trim(value))];
      }
    }
  }
}
