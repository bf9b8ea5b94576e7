/** The input panel of components/chat-panel.tsx: the predicates that gate
    typing, sending and starting over, and the panel's own state (IME
    composition, the post-composition Enter lock, focus, the suggestions
    panel and the one-shot query append). The parent's `input`, `messages`
    and `isLoading` are fields the parent sets; its callbacks are recorded
    as effects; timers are explicit methods. */
module ChatPanel {
  import opened Strings
  import opened Messages

  /** A tool-invocation part whose call has been issued and not answered. */
  predicate PendingCall(p: Part) {
    p.ToolInvocationPart? && p.toolInvocation.state == Call
  }

  /** `isToolInvocationInProgress()`: the log ends with an assistant message
      that has parts, the last of which is a pending call; an empty log, a
      last message of another role, absent parts and an empty parts list all
      mean no call is in progress. */
  function ToolInvocationInProgress(ms: seq<Message>): (r: bool)
    ensures r <==> |ms| > 0 && ms[|ms| - 1].role == Assistant && ms[|ms| - 1].parts.Some?
                   && |ms[|ms| - 1].parts.value| > 0
                   && PendingCall(ms[|ms| - 1].parts.value[|ms[|ms| - 1].parts.value| - 1])
  {
    if |ms| == 0 then false
    else
      var last := ms[|ms| - 1];
      if last.role != Assistant || last.parts.None? then false
      else
        var parts := last.parts.value;
        if |parts| == 0 then false
        else parts[|parts| - 1].ToolInvocationPart? && parts[|parts| - 1].toolInvocation.state == Call
  }

  /** Only the last message matters: a message sent by the user ends any
      pending tool call, and so does one whose last part is text. */
  lemma UserMessageEndsToolCall(ms: seq<Message>, m: Message)
    requires m.role != Assistant || m.parts.None?
    ensures !ToolInvocationInProgress(ms + [m])
  {
  }

  lemma ToolCallDependsOnLast(ms: seq<Message>, ns: seq<Message>)
    requires |ms| > 0 && |ns| > 0 && ms[|ms| - 1] == ns[|ns| - 1]
    ensures ToolInvocationInProgress(ms) == ToolInvocationInProgress(ns)
  {
  }

  /** What a key press in the textarea does. */
  datatype KeyOutcome = PassThrough | Prevented | SubmitForm

  /** The `onKeyDown` rule. */
  function EnterKey(key: string, shiftKey: bool, isComposing: bool, enterDisabled: bool, input: string)
    : (r: KeyOutcome)
    ensures r == SubmitForm <==> key == "Enter" && !shiftKey && !isComposing && !enterDisabled
                                 && !AllWhitespace(input)
    ensures r == Prevented <==> key == "Enter" && !shiftKey && !isComposing && !enterDisabled
                                && AllWhitespace(input)
  {
    TrimEmptyIff(input);
    if key == "Enter" && !shiftKey && !isComposing && !enterDisabled then
      if |Trim(input)| == 0 then Prevented else SubmitForm
    else PassThrough
  }

  /** The send button's `disabled` attribute. */
  function SendDisabled(input: string, isLoading: bool, toolInProgress: bool): (r: bool)
    ensures r <==> (AllWhitespace(input) && !isLoading) || toolInProgress
  {
    TrimEmptyIff(input);
    (|Trim(input)| == 0 && !isLoading) || toolInProgress
  }

  /** The textarea's `disabled` attribute; the "New Chat" button uses the same one. */
  function InputDisabled(isLoading: bool, toolInProgress: bool): bool {
    isLoading || toolInProgress
  }

  /** While a response streams and no tool call is pending, the input is
      locked but the button is not disabled, so activating it stops the
      generation. */
  lemma StopReachableWhileLoading(input: string, toolInProgress: bool)
    requires !toolInProgress
    ensures InputDisabled(true, toolInProgress) && !SendDisabled(input, true, toolInProgress)
  {
  }

  /** When nothing streams and no tool call is pending, sending is possible
      exactly with a non-blank input, and typing is always possible. */
  lemma IdleSendIff(input: string)
    ensures !InputDisabled(false, false)
    ensures !SendDisabled(input, false, false) <==> !AllWhitespace(input)
  {
  }

  /** The suggestions-visibility rule. */
  function ShowSuggestions(isInputFocused: bool, input: string, ms: seq<Message>): bool {
    isInputFocused && |input| == 0 && |ms| == 0
  }

  datatype PanelEffect =
    | QueryAppended(query: string)
    | FormSubmitted
    | Stopped
    | Navigated(path: string)

  function QueryAppends(effects: seq<PanelEffect>): (n: nat)
    ensures n <= |effects|
  {
    if |effects| == 0 then 0
    else QueryAppends(effects[..|effects| - 1]) + if effects[|effects| - 1].QueryAppended? then 1 else 0
  }

  lemma {:induction false} QueryAppendsOfAppend(effects: seq<PanelEffect>, e: PanelEffect)
    ensures QueryAppends(effects + [e]) == QueryAppends(effects) + if e.QueryAppended? then 1 else 0
  {
    assert (effects + [e])[..|effects|] == effects;
  }

  class ChatPanelState {
    var input: string
    var messages: seq<Message>
    var isLoading: bool
    var isComposing: bool
    var enterDisabled: bool
    var isInputFocused: bool
    var showSuggestions: bool
    var isFirstRender: bool
    var effects: seq<PanelEffect>

    /** The query is appended at most once, and not before the first effect run. */
    predicate QueryOnce()
      reads this
    {
      QueryAppends(effects) <= 1 && (isFirstRender ==> QueryAppends(effects) == 0)
    }

    constructor (input: string, messages: seq<Message>, isLoading: bool)
      ensures this.input == input && this.messages == messages && this.isLoading == isLoading
      ensures !isComposing && !enterDisabled && !isInputFocused && !showSuggestions
      ensures isFirstRender && effects == []
      ensures QueryOnce()
    {
      this.input := input;
      this.messages := messages;
      this.isLoading := isLoading;
      isComposing := false;
      enterDisabled := false;
      isInputFocused := false;
      showSuggestions := false;
      isFirstRender := true;
      effects := [];
    }

    /** The parent re-renders the panel with new props. */
    method ReceiveProps(input: string, messages: seq<Message>, isLoading: bool)
      modifies this
      ensures this.input == input && this.messages == messages && this.isLoading == isLoading
      ensures isComposing == old(isComposing) && enterDisabled == old(enterDisabled)
      ensures isInputFocused == old(isInputFocused) && showSuggestions == old(showSuggestions)
      ensures isFirstRender == old(isFirstRender) && effects == old(effects)
    {
      this.input := input;
      this.messages := messages;
      this.isLoading := isLoading;
    }

    method HandleCompositionStart()
      modifies this
      ensures isComposing
      ensures enterDisabled == old(enterDisabled) && effects == old(effects)
      ensures input == old(input) && messages == old(messages) && isLoading == old(isLoading)
      ensures isInputFocused == old(isInputFocused) && showSuggestions == old(showSuggestions)
      ensures isFirstRender == old(isFirstRender)
    {
      isComposing := true;
    }

    /** Composition ends and Enter is locked until the 100 ms timer fires. */
    method HandleCompositionEnd()
      modifies this
      ensures !isComposing && enterDisabled
      ensures effects == old(effects)
      ensures input == old(input) && messages == old(messages) && isLoading == old(isLoading)
      ensures isInputFocused == old(isInputFocused) && showSuggestions == old(showSuggestions)
      ensures isFirstRender == old(isFirstRender)
    {
      isComposing := false;
      enterDisabled := true;
    }

    method EnterLockTimerFired()
      modifies this
      ensures !enterDisabled
      ensures isComposing == old(isComposing) && effects == old(effects)
      ensures input == old(input) && messages == old(messages) && isLoading == old(isLoading)
      ensures isInputFocused == old(isInputFocused) && showSuggestions == old(showSuggestions)
      ensures isFirstRender == old(isFirstRender)
    {
      enterDisabled := false;
    }

    /** A key press. A disabled textarea receives no key events, so nothing
        happens while it is locked; otherwise the form is submitted exactly
        when `EnterKey` says so. */
    method HandleKeyDown(key: string, shiftKey: bool) returns (outcome: KeyOutcome)
      modifies this
      ensures InputDisabled(old(isLoading), ToolInvocationInProgress(old(messages))) ==>
        outcome == PassThrough && effects == old(effects)
      ensures !InputDisabled(old(isLoading), ToolInvocationInProgress(old(messages))) ==>
        outcome == EnterKey(key, shiftKey, old(isComposing), old(enterDisabled), old(input))
      ensures effects == if outcome == SubmitForm then old(effects) + [FormSubmitted] else old(effects)
      ensures outcome == SubmitForm ==> !AllWhitespace(input)
      ensures isComposing == old(isComposing) && enterDisabled == old(enterDisabled)
      ensures input == old(input) && messages == old(messages) && isLoading == old(isLoading)
      ensures isInputFocused == old(isInputFocused) && showSuggestions == old(showSuggestions)
      ensures isFirstRender == old(isFirstRender)
      ensures old(QueryOnce()) ==> QueryOnce()
    {
      if InputDisabled(isLoading, ToolInvocationInProgress(messages)) {
        return PassThrough;
      }
      outcome := EnterKey(key, shiftKey, isComposing, enterDisabled, input);
      if outcome == SubmitForm {
        QueryAppendsOfAppend(effects, FormSubmitted);
        effects := effects + [FormSubmitted];
      }
    }

    /** An activation of the send button, by mouse or keyboard, which the
        browser ignores while it is disabled: while loading it stops
        generation, otherwise it submits. */
    method ClickSendButton()
      modifies this
      ensures SendDisabled(input, isLoading, ToolInvocationInProgress(messages)) ==> effects == old(effects)
      ensures !SendDisabled(input, isLoading, ToolInvocationInProgress(messages)) ==>
        effects == old(effects) + [if isLoading then Stopped else FormSubmitted]
      ensures isComposing == old(isComposing) && enterDisabled == old(enterDisabled)
      ensures input == old(input) && messages == old(messages) && isLoading == old(isLoading)
      ensures isInputFocused == old(isInputFocused) && showSuggestions == old(showSuggestions)
      ensures isFirstRender == old(isFirstRender)
      ensures old(QueryOnce()) ==> QueryOnce()
    {
      if SendDisabled(input, isLoading, ToolInvocationInProgress(messages)) {
        return;
      }
      var e := if isLoading then Stopped else FormSubmitted;
      QueryAppendsOfAppend(effects, e);
      effects := effects + [e];
    }

    /** A click on the "New Chat" button, which is disabled exactly when the
        textarea is: `handleNewChat` empties the log and the router goes home. */
    method HandleNewChat()
      modifies this
      ensures InputDisabled(old(isLoading), ToolInvocationInProgress(old(messages))) ==>
        messages == old(messages) && effects == old(effects)
      ensures !InputDisabled(old(isLoading), ToolInvocationInProgress(old(messages))) ==>
        messages == [] && effects == old(effects) + [Navigated("/")]
      ensures isComposing == old(isComposing) && enterDisabled == old(enterDisabled)
      ensures input == old(input) && isLoading == old(isLoading)
      ensures isInputFocused == old(isInputFocused) && showSuggestions == old(showSuggestions)
      ensures isFirstRender == old(isFirstRender)
      ensures old(QueryOnce()) ==> QueryOnce()
    {
      if InputDisabled(isLoading, ToolInvocationInProgress(messages)) {
        return;
      }
      messages := [];
      QueryAppendsOfAppend(effects, Navigated("/"));
      effects := effects + [Navigated("/")];
    }

    /** The query effect: on its first run with a non-blank query the query is
        appended as a user message, and the effect never appends again. */
    method QueryEffect(query: string)
      modifies this
      ensures old(isFirstRender) && !AllWhitespace(query) ==>
        !isFirstRender && effects == old(effects) + [QueryAppended(query)]
      ensures !(old(isFirstRender) && !AllWhitespace(query)) ==>
        isFirstRender == old(isFirstRender) && effects == old(effects)
      ensures isComposing == old(isComposing) && enterDisabled == old(enterDisabled)
      ensures input == old(input) && messages == old(messages) && isLoading == old(isLoading)
      ensures isInputFocused == old(isInputFocused) && showSuggestions == old(showSuggestions)
      ensures old(QueryOnce()) ==> QueryOnce()
    {
      TrimEmptyIff(query);
      if isFirstRender && |query| > 0 && |Trim(query)| > 0 {
        QueryAppendsOfAppend(effects, QueryAppended(query));
        effects := effects + [QueryAppended(query)];
        isFirstRender := false;
      }
    }

    /** The suggestions effect, run after focus, input or messages change. */
    method SuggestionsEffect()
      modifies this
      ensures showSuggestions <==> isInputFocused && input == "" && messages == []
      ensures isComposing == old(isComposing) && enterDisabled == old(enterDisabled) && effects == old(effects)
      ensures input == old(input) && messages == old(messages) && isLoading == old(isLoading)
      ensures isInputFocused == old(isInputFocused) && isFirstRender == old(isFirstRender)
    {
      showSuggestions := ShowSuggestions(isInputFocused, input, messages);
    }

    method HandleFocus()
      modifies this
      ensures isInputFocused
      ensures isComposing == old(isComposing) && enterDisabled == old(enterDisabled) && effects == old(effects)
      ensures input == old(input) && messages == old(messages) && isLoading == old(isLoading)
      ensures showSuggestions == old(showSuggestions) && isFirstRender == old(isFirstRender)
    {
      isInputFocused := true;
    }

    /** The 150 ms blur timer: focus is dropped unless the newly focused
        element lies inside the suggestions panel. */
    method BlurTimerFired(activeInSuggestions: bool)
      modifies this
      ensures isInputFocused == (old(isInputFocused) && activeInSuggestions)
      ensures isComposing == old(isComposing) && enterDisabled == old(enterDisabled) && effects == old(effects)
      ensures input == old(input) && messages == old(messages) && isLoading == old(isLoading)
      ensures showSuggestions == old(showSuggestions) && isFirstRender == old(isFirstRender)
    {
      if !activeInSuggestions {
        isInputFocused := false;
      }
    }

    /** A suggestion is picked: it becomes the input and focus is released
        (refocusing later is a timer outside this model). */
    method SubmitSuggestion(message: string)
      modifies this
      ensures input == message && !isInputFocused
      ensures isComposing == old(isComposing) && enterDisabled == old(enterDisabled) && effects == old(effects)
      ensures messages == old(messages) && isLoading == old(isLoading)
      ensures showSuggestions == old(showSuggestions) && isFirstRender == old(isFirstRender)
    {
      input := message;
      isInputFocused := false;
    }
  }
}
