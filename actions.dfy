/** The server actions of app/actions.ts. The model list is loaded through
    the registry; every chat-history action is disabled and answers with a
    constant whatever its arguments, without touching stored state (their
    log lines are not modelled). Results are the JSON values the client
    receives. */
module AppActions {
  import opened Js
  import opened ModelConfig

  const HistoryDisabledText := "Chat history is disabled."
  const FetchFailedText := "Failed to fetch models"

  /** The record the disabled mutating actions return. */
  const HistoryDisabled: JsValue := Obj(map["error" := Str(HistoryDisabledText)])

  /** `fetchModelsAction()`: the registry's list; loading errors would be
      rethrown as "Failed to fetch models", but loading cannot throw. */
  function FetchModelsAction(config: JsValue): (r: Completion<seq<JsValue>>)
    ensures r.Normal? && r.value == GetModels(config)
    ensures forall i :: 0 <= i < |r.value| ==> IsValid(r.value[i])
  {
    Normal(GetModels(config))
  }

  /** The rethrow branch is dead: the action never fails, for any bundled
      configuration. */
  lemma FetchModelsNeverFails(config: JsValue)
    ensures FetchModelsAction(config) != Throw(ErrorObject(FetchFailedText))
  {
  }

  function GetChat(id: string, userId: string): (r: JsValue)
    ensures r == Null
  {
    Null
  }

  function GetChats(userId: JsValue): (r: JsValue)
    ensures r == Arr([])
  {
    Arr([])
  }

  function RemoveChat(id: string, path: string): (r: JsValue)
    ensures Get(r, "error") == Normal(Str(HistoryDisabledText))
  {
    HistoryDisabled
  }

  function ClearChats(): (r: JsValue)
    ensures Get(r, "error") == Normal(Str(HistoryDisabledText))
  {
    HistoryDisabled
  }

  function GetSharedChat(id: string): (r: JsValue)
    ensures r == Null
  {
    Null
  }

  function ShareChat(chat: JsValue): (r: JsValue)
    ensures Get(r, "error") == Normal(Str(HistoryDisabledText))
  {
    HistoryDisabled
  }

  /** No argument changes any answer: the history actions are constants. */
  lemma HistoryActionsIgnoreArguments(id1: string, id2: string, u1: string, u2: string,
                                      p1: string, p2: string, c1: JsValue, c2: JsValue)
    ensures GetChat(id1, u1) == GetChat(id2, u2) && GetSharedChat(id1) == GetSharedChat(id2)
    ensures RemoveChat(id1, p1) == RemoveChat(id2, p2) == ClearChats() == ShareChat(c1) == ShareChat(c2)
  {
  }
}
