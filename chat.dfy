/** The chat component of components/chat.tsx: the registration gate and the
    edits of the conversation log done before a regeneration. The hook's
    `reload`, `handleSubmit`, `append` and the gate's trigger are effects the
    component fires; they are recorded, in order, in `effects`. */
module Chat {
  import opened Wrappers
  import opened Js
  import opened Messages

  /** The `useChat` status; the first two mean a request is in flight. */
  datatype ChatStatus = Submitted | Streaming | Ready | Errored

  /** `status === 'submitted' || status === 'streaming'`. */
  function IsLoading(status: ChatStatus): (r: bool)
    ensures r <==> !(status == Ready || status == Errored)
  {
    status == Submitted || status == Streaming
  }

  /** The request body a `reload` is sent with: the edit handler's own body,
      or the options its caller passed, unchanged (kept as opaque text). */
  datatype ReloadBody = Regenerate(chatId: string) | CallerOptions(options: Option<string>)

  datatype Effect =
    | GateTriggered
    | SubmitDelegated
    | Reloaded(body: ReloadBody)
    | Appended(message: CreateMessage)
    | ExternalMessageConsumed

  /** `messages.filter(m => m.role === 'user').length`. */
  function UserCount(ms: seq<Message>): (n: nat)
    ensures n <= |ms|
  {
    if |ms| == 0 then 0
    else (if ms[0].role == User then 1 else 0) + UserCount(ms[1..])
  }

  lemma {:induction false} UserCountPositiveIff(ms: seq<Message>)
    ensures UserCount(ms) >= 1 <==> exists i :: 0 <= i < |ms| && ms[i].role == User
  {
    if |ms| > 0 {
      UserCountPositiveIff(ms[1..]);
      assert forall i :: 1 <= i < |ms| ==> ms[1..][i - 1] == ms[i];
      if ms[0].role != User && exists i :: 0 <= i < |ms| && ms[i].role == User {
        var i :| 0 <= i < |ms| && ms[i].role == User;
        assert ms[1..][i - 1].role == User;
      }
    }
  }

  /** `checkRegistrationGate`'s verdict: blocked once the log holds a user
      message and the user is not registered. With no user message the gate
      is open whatever the registration. */
  function GateBlocked(ms: seq<Message>, isRegistered: bool): (blocked: bool)
    ensures blocked <==> !isRegistered && exists i :: 0 <= i < |ms| && ms[i].role == User
  {
    UserCountPositiveIff(ms);
    UserCount(ms) >= 1 && !isRegistered
  }

  /** `messages.map(msg => msg.id === messageId ? { ...msg, content } : msg)`. */
  function WithContent(ms: seq<Message>, messageId: string, content: string): (r: seq<Message>)
    ensures |r| == |ms|
    ensures forall i :: 0 <= i < |ms| ==>
      r[i] == if ms[i].id == messageId then ms[i].(content := content) else ms[i]
  {
    if |ms| == 0 then []
    else
      [if ms[0].id == messageId then ms[0].(content := content) else ms[0]]
      + WithContent(ms[1..], messageId, content)
  }

  /** `messages.findIndex(m => m.id === messageId)`. */
  function FindIndex(ms: seq<Message>, messageId: string): (r: int)
    ensures -1 <= r < |ms|
    ensures r == -1 <==> forall i :: 0 <= i < |ms| ==> ms[i].id != messageId
    ensures r >= 0 ==> ms[r].id == messageId && forall i :: 0 <= i < r ==> ms[i].id != messageId
  {
    if |ms| == 0 then -1
    else if ms[0].id == messageId then 0
    else
      var r := FindIndex(ms[1..], messageId);
      assert forall i :: 1 <= i < |ms| ==> ms[1..][i - 1] == ms[i];
      if r == -1 then -1 else r + 1
  }

  /** `messages.findLastIndex(m => m.role === 'user')`. */
  function FindLastUser(ms: seq<Message>): (r: int)
    ensures -1 <= r < |ms|
    ensures r == -1 <==> forall i :: 0 <= i < |ms| ==> ms[i].role != User
    ensures r >= 0 ==> ms[r].role == User && forall i :: r < i < |ms| ==> ms[i].role != User
  {
    if |ms| == 0 then -1
    else if ms[|ms| - 1].role == User then |ms| - 1
    else
      var r := FindLastUser(ms[..|ms| - 1]);
      assert forall i :: 0 <= i < |ms| - 1 ==> ms[..|ms| - 1][i] == ms[i];
      r
  }

  /** The log `handleUpdateAndReloadMessage` leaves behind: the edited log,
      truncated after the first message with the id when there is one. */
  function EditedLog(ms: seq<Message>, messageId: string, content: string): seq<Message> {
    var updated := WithContent(ms, messageId, content);
    var i := FindIndex(updated, messageId);
    if i == -1 then updated else updated[..i + 1]
  }

  /** `findIndex` by id only looks at the ids. */
  lemma {:induction false} FindIndexByIds(a: seq<Message>, b: seq<Message>, messageId: string)
    requires |a| == |b| && forall j :: 0 <= j < |a| ==> a[j].id == b[j].id
    ensures FindIndex(a, messageId) == FindIndex(b, messageId)
  {
    var i := FindIndex(a, messageId);
    var k := FindIndex(b, messageId);
    if i >= 0 && k >= 0 {
      assert !(i < k) && !(k < i);
    }
  }

  /** The edit keeps the log up to the edited message, which becomes the
      tail with the new content; everything before it is untouched. */
  lemma {:induction false} EditFound(ms: seq<Message>, messageId: string, content: string)
    requires FindIndex(ms, messageId) >= 0
    ensures var i := FindIndex(ms, messageId);
            EditedLog(ms, messageId, content) == ms[..i] + [ms[i].(content := content)]
  {
    var i := FindIndex(ms, messageId);
    var updated := WithContent(ms, messageId, content);
    FindIndexByIds(ms, updated, messageId);
    assert EditedLog(ms, messageId, content) == updated[..i + 1];
    var expected := ms[..i] + [ms[i].(content := content)];
    forall k | 0 <= k <= i ensures updated[..i + 1][k] == expected[k] {
      if k < i {
        assert ms[k].id != messageId;
      }
    }
    assert updated[..i + 1] == expected;
  }

  /** The edited message is the last one and carries the new content. */
  lemma {:induction false} EditedIsTail(ms: seq<Message>, messageId: string, content: string)
    requires FindIndex(ms, messageId) >= 0
    ensures var r := EditedLog(ms, messageId, content);
            |r| == FindIndex(ms, messageId) + 1
            && r[|r| - 1].id == messageId && r[|r| - 1].content == content
  {
    EditFound(ms, messageId, content);
  }

  /** Editing a message that is not in the log changes nothing. */
  lemma {:induction false} EditNotFound(ms: seq<Message>, messageId: string, content: string)
    requires FindIndex(ms, messageId) == -1
    ensures EditedLog(ms, messageId, content) == ms
  {
    var updated := WithContent(ms, messageId, content);
    assert forall j :: 0 <= j < |ms| ==> updated[j] == ms[j];
  }

  /** The log `handleReloadFrom` leaves behind: cut after the last user
      message strictly before the target, or unchanged when the target is
      missing or no user message precedes it. */
  function ReloadLog(ms: seq<Message>, messageId: string): seq<Message> {
    var i := FindIndex(ms, messageId);
    if i == -1 then ms
    else
      var u := FindLastUser(ms[..i]);
      if u == -1 then ms else ms[..u + 1]
  }

  /** Some user message stands strictly before the first message with the id. */
  predicate HasUserBefore(ms: seq<Message>, messageId: string) {
    var i := FindIndex(ms, messageId);
    i >= 0 && exists j :: 0 <= j < i && ms[j].role == User
  }

  /** Reload cuts the log to a prefix ending in a user message, the last user
      message before the target; a target that is itself a user message is
      dropped. */
  lemma {:induction false} ReloadFound(ms: seq<Message>, messageId: string)
    requires HasUserBefore(ms, messageId)
    ensures var i := FindIndex(ms, messageId);
            var r := ReloadLog(ms, messageId);
            && 0 < |r| <= i
            && r == ms[..|r|]
            && r[|r| - 1].role == User
            && (forall j :: |r| <= j < i ==> ms[j].role != User)
  {
    var i := FindIndex(ms, messageId);
    var pre := ms[..i];
    var u := FindLastUser(pre);
    var j :| 0 <= j < i && ms[j].role == User;
    assert pre[j].role == User;
    assert forall k :: 0 <= k < i ==> pre[k] == ms[k];
  }

  /** Reload leaves the log as it is exactly when no user message precedes
      the target, found or not. */
  lemma {:induction false} ReloadUnchangedIff(ms: seq<Message>, messageId: string)
    ensures ReloadLog(ms, messageId) == ms <==> !HasUserBefore(ms, messageId)
  {
    var i := FindIndex(ms, messageId);
    if i >= 0 {
      var pre := ms[..i];
      assert forall k :: 0 <= k < i ==> pre[k] == ms[k];
      if HasUserBefore(ms, messageId) {
        ReloadFound(ms, messageId);
      }
    }
  }

  /** The worked example: in [user a, assistant b, user c, assistant d],
      reloading from d keeps [user a, assistant b, user c]. */
  lemma {:induction false} ReloadExample(a: Message, b: Message, c: Message, d: Message)
    requires a.role == User && b.role == Assistant && c.role == User && d.role == Assistant
    requires a.id != d.id && b.id != d.id && c.id != d.id
    ensures ReloadLog([a, b, c, d], d.id) == [a, b, c]
  {
    var ms := [a, b, c, d];
    assert ms[3].id == d.id && ms[0] == a && ms[1] == b && ms[2] == c;
    assert FindIndex(ms, d.id) == 3;
    assert ms[..3] == [a, b, c];
    assert FindLastUser([a, b, c]) == 2;
  }

  class ChatSession {
    /** The chat id sent with every request. */
    const id: string
    /** The conversation log held by `useChat`. */
    var messages: seq<Message>
    /** The stream data of `useChat`; `None` is `undefined`. */
    var data: Option<seq<JsValue>>
    /** The callbacks fired, in order. */
    var effects: seq<Effect>

    constructor (id: string, savedMessages: seq<Message>)
      ensures this.id == id && messages == savedMessages && data == None && effects == []
    {
      this.id := id;
      messages := savedMessages;
      data := None;
      effects := [];
    }

    /** `checkRegistrationGate()`: fires the trigger exactly when it blocks. */
    method CheckRegistrationGate(isRegistered: bool) returns (blocked: bool)
      modifies this
      ensures blocked == GateBlocked(old(messages), isRegistered)
      ensures messages == old(messages) && data == old(data)
      ensures effects == old(effects) + (if blocked then [GateTriggered] else [])
    {
      blocked := GateBlocked(messages, isRegistered);
      if blocked {
        effects := effects + [GateTriggered];
      }
    }

    /** `handleInterceptSubmit`: blocked, nothing but the trigger; open, the
      stream data is cleared and the hook's `handleSubmit` takes over. */
    method HandleInterceptSubmit(isRegistered: bool)
      modifies this
      ensures messages == old(messages)
      ensures GateBlocked(old(messages), isRegistered) ==>
        data == old(data) && effects == old(effects) + [GateTriggered]
      ensures !GateBlocked(old(messages), isRegistered) ==>
        data == None && effects == old(effects) + [SubmitDelegated]
    {
      var blocked := CheckRegistrationGate(isRegistered);
      if blocked {
        return;
      }
      data := None;
      effects := effects + [SubmitDelegated];
    }

    /** `handleUpdateAndReloadMessage`: blocked, nothing but the trigger;
      open, the log becomes `EditedLog`, and only when the id is found is the
      data cleared and a regeneration requested. */
    method HandleUpdateAndReloadMessage(messageId: string, newContent: string, isRegistered: bool)
      modifies this
      ensures GateBlocked(old(messages), isRegistered) ==>
        messages == old(messages) && data == old(data) && effects == old(effects) + [GateTriggered]
      ensures !GateBlocked(old(messages), isRegistered) ==>
        && messages == EditedLog(old(messages), messageId, newContent)
        && (FindIndex(old(messages), messageId) == -1 ==>
              messages == old(messages) && data == old(data) && effects == old(effects))
        && (FindIndex(old(messages), messageId) >= 0 ==>
              data == None && effects == old(effects) + [Reloaded(Regenerate(id))])
    {
      var blocked := CheckRegistrationGate(isRegistered);
      if blocked {
        return;
      }
      var updated := WithContent(messages, messageId, newContent);
      messages := updated;
      var messageIndex := FindIndex(updated, messageId);
      assert forall j :: 0 <= j < |updated| ==> updated[j].id == old(messages)[j].id;
      if messageIndex == -1 {
        EditNotFound(old(messages), messageId, newContent);
        return;
      }
      messages := updated[..messageIndex + 1];
      data := None;
      effects := effects + [Reloaded(Regenerate(id))];
    }

    /** `handleReloadFrom`: blocked, nothing but the trigger; open, the log
      becomes `ReloadLog` and `reload` is called with the caller's options in
      every case. */
    method HandleReloadFrom(messageId: string, options: Option<string>, isRegistered: bool)
      modifies this
      ensures data == old(data)
      ensures GateBlocked(old(messages), isRegistered) ==>
        messages == old(messages) && effects == old(effects) + [GateTriggered]
      ensures !GateBlocked(old(messages), isRegistered) ==>
        messages == ReloadLog(old(messages), messageId)
        && effects == old(effects) + [Reloaded(CallerOptions(options))]
    {
      var blocked := CheckRegistrationGate(isRegistered);
      if blocked {
        return;
      }
      var messageIndex := FindIndex(messages, messageId);
      if messageIndex != -1 {
        var userMessageIndex := FindLastUser(messages[..messageIndex]);
        if userMessageIndex != -1 {
          messages := messages[..userMessageIndex + 1];
        }
      }
      effects := effects + [Reloaded(CallerOptions(options))];
    }

    /** `onQuerySelect`: a suggested query is appended as a user message. The
      gate is not consulted on this path. */
    method OnQuerySelect(queryText: string)
      modifies this
      ensures messages == old(messages) && data == old(data)
      ensures effects == old(effects) + [Appended(CreateMessage(User, queryText))]
    {
      effects := effects + [Appended(CreateMessage(User, queryText))];
    }

    /** The pending-message effect: a message handed in by the page (a game
      prediction) is appended, then reported consumed. No gate either. */
    method ConsumePendingMessage(pending: Option<CreateMessage>, hasConsumer: bool)
      modifies this
      ensures messages == old(messages) && data == old(data)
      ensures pending.Some? && hasConsumer ==>
        effects == old(effects) + [Appended(pending.value), ExternalMessageConsumed]
      ensures !(pending.Some? && hasConsumer) ==> effects == old(effects)
    {
      if pending.Some? && hasConsumer {
        effects := effects + [Appended(pending.value), ExternalMessageConsumed];
      }
    }
  }
}
