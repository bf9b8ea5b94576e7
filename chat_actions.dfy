/** The history stubs of lib/actions/chat.ts. They keep their signatures so
    that callers still compile, and return empty answers; `clearChats` only
    revalidates and redirects to the home page, which the model records as
    effects. A missing user id defaults to 'anonymous', which no stub uses. */
module ChatActions {
  import opened Wrappers
  import opened Js
  import AppActions

  const AnonymousUser := "anonymous"

  /** A framework call made by a server action. */
  datatype ServerEffect = Revalidated(path: string) | Redirected(path: string)

  function UserOrAnonymous(userId: Option<string>): (u: string)
    ensures userId.None? ==> u == AnonymousUser
    ensures userId.Some? ==> u == userId.value
  {
    match userId
    case None => AnonymousUser
    case Some(u) => u
  }

  function GetChats(userId: JsValue): (r: JsValue)
    ensures r == Arr([])
  {
    Arr([])
  }

  function GetChat(id: string, userId: Option<string>): (r: JsValue)
    ensures r == Null
  {
    Null
  }

  /** `clearChats`: no data is changed; the home page is revalidated and the
      client redirected to it, so the action returns no value. */
  function ClearChats(userId: Option<string>): (effects: seq<ServerEffect>)
    ensures effects == [Revalidated("/"), Redirected("/")]
  {
    [Revalidated("/"), Redirected("/")]
  }

  /** `saveChat`: returns `undefined` and stores nothing. */
  function SaveChat(chat: JsValue, userId: Option<string>): (r: JsValue)
    ensures r == Undefined
  {
    Undefined
  }

  function GetSharedChat(id: string): (r: JsValue)
    ensures r == Null
  {
    Null
  }

  function ShareChat(id: string, userId: Option<string>): (r: JsValue)
    ensures r == Null
  {
    Null
  }

  /** The two `shareChat` stubs disagree: this one answers `null`, the one in
      app/actions.ts an error record; both `getChats` agree on `[]`, both
      `getChat` and `getSharedChat` on `null`. */
  lemma StubsCompared(id: string, userId: Option<string>, chat: JsValue, u: JsValue)
    ensures ShareChat(id, userId) != AppActions.ShareChat(chat)
    ensures Get(ShareChat(id, userId), "error").Throw?
    ensures GetChats(u) == AppActions.GetChats(u)
    ensures GetChat(id, userId) == AppActions.GetChat(id, UserOrAnonymous(userId))
    ensures GetSharedChat(id) == AppActions.GetSharedChat(id)
  {
  }
}
