/** The page of app/page.tsx: the chat/games view switch, the persisted user
    id, the registration status and the registration modal's visibility.
    `localStorage` is the `storage` field; the status endpoint's answer and
    the generated id are inputs. */
module Page {
  import opened Wrappers
  import opened Js
  import opened Strings
  import opened Messages

  const UserIdKey := "oracleUserId"
  const UserStatusKey := "oracleUserStatus"
  const RegisteredStatus := "registered"

  datatype ViewMode = ChatView | GamesView

  function Flip(mode: ViewMode): (r: ViewMode)
    ensures r != mode
  {
    if mode == ChatView then GamesView else ChatView
  }

  /** `localStorage.getItem(key)`, `None` standing for `null`. */
  function GetItem(storage: map<string, string>, key: string): Option<string> {
    if key in storage then Some(storage[key]) else None
  }

  /** Some message of the log has content other than whitespace. */
  function AnyNonBlank(ms: seq<Message>): (r: bool)
    ensures r <==> exists i :: 0 <= i < |ms| && !AllWhitespace(ms[i].content)
  {
    if |ms| == 0 then false
    else
      TrimEmptyIff(ms[0].content);
      NonBlankSplit(ms);
      Trim(ms[0].content) != "" || AnyNonBlank(ms[1..])
  }

  /** A non-blank message is the first one or a non-blank message of the rest. */
  lemma NonBlankSplit(ms: seq<Message>)
    requires |ms| > 0
    ensures (exists i :: 0 <= i < |ms| && !AllWhitespace(ms[i].content))
            <==> !AllWhitespace(ms[0].content)
                 || exists j :: 0 <= j < |ms[1..]| && !AllWhitespace(ms[1..][j].content)
  {
    if j :| 0 <= j < |ms[1..]| && !AllWhitespace(ms[1..][j].content) {
      assert ms[1..][j] == ms[j + 1];
    }
    if i :| 1 <= i < |ms| && !AllWhitespace(ms[i].content) {
      assert ms[1..][i - 1] == ms[i];
    }
  }

  /** `messages.length > 0 && messages.some(m => m.content.trim() !== '')`:
      some message has a character that is not whitespace. */
  function HasMessages(ms: seq<Message>): (r: bool)
    ensures r <==> exists i :: 0 <= i < |ms| && exists k :: 0 <= k < |ms[i].content|
                                                 && !IsWhitespace(ms[i].content[k])
  {
    |ms| > 0 && AnyNonBlank(ms)
  }

  class PageState {
    var viewMode: ViewMode
    var hasMessages: bool
    var userId: string
    var isRegistered: bool
    var showRegModal: bool
    var storage: map<string, string>

    constructor (storage: map<string, string>)
      ensures viewMode == ChatView && !hasMessages && userId == ""
      ensures !isRegistered && !showRegModal && this.storage == storage
    {
      viewMode := ChatView;
      hasMessages := false;
      userId := "";
      isRegistered := false;
      showRegModal := false;
      this.storage := storage;
    }

    /** The user-id effect: a stored id is reused; otherwise the freshly
        generated 16-character id is stored and used. */
    method InitUserId(generated: string)
      requires |generated| == 16
      modifies this
      ensures GetItem(old(storage), UserIdKey).Some? && GetItem(old(storage), UserIdKey).value != "" ==>
        userId == old(storage)[UserIdKey] && storage == old(storage)
      ensures !(GetItem(old(storage), UserIdKey).Some? && GetItem(old(storage), UserIdKey).value != "") ==>
        userId == generated && storage == old(storage)[UserIdKey := generated]
      ensures userId != "" && GetItem(storage, UserIdKey) == Some(userId)
      ensures viewMode == old(viewMode) && hasMessages == old(hasMessages)
      ensures isRegistered == old(isRegistered) && showRegModal == old(showRegModal)
    {
      var current := GetItem(storage, UserIdKey);
      var id: string;
      if current.None? || current.value == "" {
        id := generated;
        storage := storage[UserIdKey := id];
      } else {
        id := current.value;
      }
      userId := id;
    }

    /** The initial-status effect, given the status endpoint's parsed answer
        (`None` when the fetch or the JSON decoding failed). Nothing happens
        while there is no user id; a stored 'registered' status settles it
        without the network; otherwise only a 'registered' answer registers. */
    method CheckInitialStatus(response: Option<JsValue>)
      modifies this
      ensures old(userId) == "" ==> isRegistered == old(isRegistered) && storage == old(storage)
      ensures old(userId) != "" && GetItem(old(storage), UserStatusKey) == Some(RegisteredStatus) ==>
        isRegistered && storage == old(storage)
      ensures old(userId) != "" && GetItem(old(storage), UserStatusKey) != Some(RegisteredStatus) ==>
        if response.Some? && Get(response.value, "status") == Normal(Str(RegisteredStatus)) then
          isRegistered && storage == old(storage)[UserStatusKey := RegisteredStatus]
        else
          isRegistered == old(isRegistered) && storage == old(storage)
      ensures old(isRegistered) ==> isRegistered
      ensures viewMode == old(viewMode) && hasMessages == old(hasMessages)
      ensures userId == old(userId) && showRegModal == old(showRegModal)
    {
      if userId == "" {
        return;
      }
      if GetItem(storage, UserStatusKey) == Some(RegisteredStatus) {
        isRegistered := true;
        return;
      }
      if response.None? {
        return;
      }
      match Get(response.value, "status")
      case Throw(_) =>
      case Normal(status) =>
        if status == Str(RegisteredStatus) {
          isRegistered := true;
          storage := storage[UserStatusKey := RegisteredStatus];
        }
    }

    /** `toggleViewMode`: with messages and no registration the modal opens
        and the view stays; otherwise the view flips. */
    method ToggleViewMode()
      modifies this
      ensures old(hasMessages) && !old(isRegistered) ==>
        showRegModal && viewMode == old(viewMode)
      ensures !(old(hasMessages) && !old(isRegistered)) ==>
        viewMode == Flip(old(viewMode)) && showRegModal == old(showRegModal)
      ensures hasMessages == old(hasMessages) && isRegistered == old(isRegistered)
      ensures userId == old(userId) && storage == old(storage)
    {
      if hasMessages && !isRegistered {
        showRegModal := true;
        return;
      }
      viewMode := if viewMode == ChatView then GamesView else ChatView;
    }

    /** Two toggles that the gate lets through restore the view. */
    method ToggleTwice()
      requires !hasMessages || isRegistered
      modifies this
      ensures viewMode == old(viewMode) && showRegModal == old(showRegModal)
    {
      ToggleViewMode();
      ToggleViewMode();
    }

    /** The chat's message-change callback. */
    method OnMessagesChange(ms: seq<Message>)
      modifies this
      ensures hasMessages == HasMessages(ms)
      ensures viewMode == old(viewMode) && isRegistered == old(isRegistered)
      ensures userId == old(userId) && showRegModal == old(showRegModal) && storage == old(storage)
    {
      hasMessages := HasMessages(ms);
    }

    /** The chat's gate trigger: the registration modal opens. */
    method OnRegistrationGateTrigger()
      modifies this
      ensures showRegModal
      ensures viewMode == old(viewMode) && hasMessages == old(hasMessages)
      ensures isRegistered == old(isRegistered) && userId == old(userId) && storage == old(storage)
    {
      showRegModal := true;
    }

    /** The modal's success callback: registered for good, modal closed, and
        the status persisted. */
    method OnRegistrationSuccess()
      modifies this
      ensures isRegistered && !showRegModal
      ensures storage == old(storage)[UserStatusKey := RegisteredStatus]
      ensures viewMode == old(viewMode) && hasMessages == old(hasMessages) && userId == old(userId)
    {
      isRegistered := true;
      showRegModal := false;
      storage := storage[UserStatusKey := RegisteredStatus];
    }
  }
}
