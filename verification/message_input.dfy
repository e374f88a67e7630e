/** The message box under the chat (src/components/Chat/MessageInput.tsx):
    the text field, the send button, the character counter and the gate in
    front of the parent's send handler. */
module MessageInput {
  import opened Base
  import opened Text
  import ChatInterface

  /** The figure the counter shows after the slash. Nothing enforces it. */
  const CounterLimit: nat := 1000

  /** The field's text afterwards, and the text handed to the parent, if any. */
  datatype SubmitResult = SubmitResult(text: string, sent: Option<string>)

  /** `handleSubmit`: sends the text exactly as typed (untrimmed) when its
      trimmed form is non-empty and no reply is pending, then empties the field;
      otherwise nothing happens. There is no length limit. */
  function Submit(text: string, isLoading: bool): (r: SubmitResult)
    ensures r.sent.Some? <==> !AllWhitespace(text) && !isLoading
    ensures r.sent.Some? ==> r.sent.value == text && r.text == ""
    ensures r.sent.None? ==> r.text == text
  {
    if Trim(text) != "" && !isLoading then SubmitResult("", Some(text)) else SubmitResult(text, None)
  }

  /** `handleKeyPress`: Enter without Shift submits (and suppresses the
      default action); every other key leaves the field alone. */
  function KeyPress(text: string, isLoading: bool, key: string, shift: bool): (r: (SubmitResult, bool))
    ensures r.1 <==> key == "Enter" && !shift
    ensures r.1 ==> r.0 == Submit(text, isLoading)
    ensures !r.1 ==> r.0 == SubmitResult(text, None)
  {
    if key == "Enter" && !shift then (Submit(text, isLoading), true) else (SubmitResult(text, None), false)
  }

  /** What the box shows. */
  datatype Controls = Controls(inputDisabled: bool, sendDisabled: bool, counter: string, spinner: bool)

  function View(text: string, isLoading: bool): (c: Controls)
    ensures c.inputDisabled == isLoading && c.spinner == isLoading
    ensures c.sendDisabled <==> AllWhitespace(text) || isLoading
    ensures ParseInt(c.counter) == Some(Utf16Length(text))
  {
    CounterReadsLength(text);
    Controls(isLoading, Trim(text) == "" || isLoading, Counter(text), isLoading)
  }

  /** `{message.length}/1000`, where `length` counts UTF-16 code units. */
  function Counter(text: string): string {
    NatToString(Utf16Length(text)) + "/" + NatToString(CounterLimit)
  }

  /** The counter begins with the JavaScript length of the text, whatever that length. */
  lemma CounterReadsLength(text: string)
    ensures ParseInt(Counter(text)) == Some(Utf16Length(text))
  {
    var n := Utf16Length(text);
    var rest := "/" + NatToString(CounterLimit);
    assert rest[0] == '/';
    assert Counter(text) == NatToString(n) + rest;
    ParseIntOfNatToStringThen(n, rest);
  }

  /** The counter shows the number of characters exactly for text inside the
      Basic Multilingual Plane. */
  lemma CounterCountsCodeUnits(text: string, isLoading: bool)
    ensures ParseInt(View(text, isLoading).counter) == Some(|text|) <==> InBmp(text)
  {
    Utf16LengthIff(text);
  }

  /** One emoji counts as two. */
  lemma EmojiCountsTwice(isLoading: bool)
    ensures ParseInt(View("\U{1F600}", isLoading).counter) == Some(2)
  {
    var e := "\U{1F600}";
    assert Utf16Length(e) == 2 by {
      assert e[1..] == [];
    }
  }

  /** The button is enabled exactly when clicking it would send. */
  lemma ButtonMatchesSubmit(text: string, isLoading: bool)
    ensures !View(text, isLoading).sendDisabled <==> Submit(text, isLoading).sent.Some?
  {
  }

  /** Whatever the box sends, the chat's send handler does not ignore: it
      inserts the trimmed text as the user's message. */
  lemma SubmittedTextIsNotIgnored(text: string, isLoading: bool, s: ChatInterface.ChatState, chatId: string,
                                  insert: ChatInterface.InsertOutcome, action: ChatInterface.ActionOutcome,
                                  gen: ChatInterface.Generated)
    requires Submit(text, isLoading).sent.Some?
    ensures var r := ChatInterface.HandleSend(s, chatId, Submit(text, isLoading).sent.value, insert, action, gen);
      |r.requests| >= 1 && r.requests[0] == ChatInterface.InsertMessage(chatId, Trim(text), false)
  {
  }
}
