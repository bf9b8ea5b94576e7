/** The model picker of components/model-selector.tsx: grouping the enabled
    models by provider, the toggle-select handler that writes the
    `selectedModel` cookie, and the effect that restores a saved choice.
    `createModelId`, `JSON.parse` and `JSON.stringify` are inputs. */
module ModelSelector {
  import opened Wrappers
  import opened Js
  import opened ModelConfig
  import ChatRoute

  datatype ModelTag = Popular | Fast | Reasoning

  function TagName(t: ModelTag): string {
    match t
    case Popular => "popular"
    case Fast => "fast"
    case Reasoning => "reasoning"
  }

  /** A descriptor with the picker's optional tags. */
  datatype ExtendedModel = ExtendedModel(model: Model, tags: Option<seq<ModelTag>>)

  function TagsValue(tags: seq<ModelTag>): JsValue {
    Arr(seq(|tags|, i requires 0 <= i < |tags| => Str(TagName(tags[i]))))
  }

  /** The object the picker holds for a model. */
  function ToJs(m: ExtendedModel): (v: JsValue)
    ensures v.Obj?
  {
    var base := Encode(m.model).fields;
    match m.tags
    case None => Obj(base)
    case Some(tags) => Obj(base["tags" := TagsValue(tags)])
  }

  /** The record written to the cookie: `{id, name, provider, providerId, tags}`,
      an undefined `tags` being left out by `JSON.stringify`. */
  function SavedRecord(m: ExtendedModel): (v: JsValue)
    ensures v.Obj?
  {
    var base := map[
      "id" := Str(m.model.id),
      "name" := Str(m.model.name),
      "provider" := Str(m.model.provider),
      "providerId" := Str(m.model.providerId)];
    match m.tags
    case None => Obj(base)
    case Some(tags) => Obj(base["tags" := TagsValue(tags)])
  }

  /** The enabled models of provider `p`, in input order: the group
      `groupModelsByProvider` builds under the key `p`. */
  function InGroup(ms: seq<ExtendedModel>, p: string): seq<ExtendedModel> {
    if |ms| == 0 then []
    else
      var prev := InGroup(ms[..|ms| - 1], p);
      var m := ms[|ms| - 1];
      if m.model.enabled && m.model.provider == p then prev + [m] else prev
  }

  /** The provider names of the enabled models, each once, in order of first
      appearance: the order in which the groups are created. */
  function ProviderOrder(ms: seq<ExtendedModel>): seq<string> {
    if |ms| == 0 then []
    else
      var prev := ProviderOrder(ms[..|ms| - 1]);
      var m := ms[|ms| - 1];
      if !m.model.enabled || m.model.provider in prev then prev else prev + [m.model.provider]
  }

  /** `models.filter(model => model.enabled)`. */
  function EnabledModels(ms: seq<ExtendedModel>): (r: seq<ExtendedModel>)
    ensures forall i :: 0 <= i < |r| ==> r[i].model.enabled
  {
    if |ms| == 0 then []
    else
      var prev := EnabledModels(ms[..|ms| - 1]);
      var m := ms[|ms| - 1];
      if m.model.enabled then prev + [m] else prev
  }

  lemma {:induction false} FilterThenGroup(ms: seq<ExtendedModel>, p: string)
    ensures InGroup(EnabledModels(ms), p) == InGroup(ms, p)
    ensures ProviderOrder(EnabledModels(ms)) == ProviderOrder(ms)
  {
    if |ms| > 0 {
      var init := ms[..|ms| - 1];
      FilterThenGroup(init, p);
      var e := EnabledModels(init);
      if ms[|ms| - 1].model.enabled {
        assert (e + [ms[|ms| - 1]])[..|e|] == e;
      }
    }
  }

  /** Each occurrence of an enabled model lands in the group of its provider
      name, and in no other group: occurrences are counted exactly. */
  lemma {:induction false} InGroupCounts(ms: seq<ExtendedModel>, p: string, m: ExtendedModel)
    ensures multiset(InGroup(ms, p))[m]
            == if m.model.enabled && m.model.provider == p then multiset(ms)[m] else 0
  {
    if |ms| > 0 {
      InGroupCounts(ms[..|ms| - 1], p, m);
      assert ms == ms[..|ms| - 1] + [ms[|ms| - 1]];
    }
  }

  lemma {:induction false} ProviderOrderMembers(ms: seq<ExtendedModel>, p: string)
    ensures p in ProviderOrder(ms) <==> InGroup(ms, p) != []
  {
    if |ms| > 0 {
      ProviderOrderMembers(ms[..|ms| - 1], p);
    }
  }

  lemma {:induction false} ProviderOrderDistinct(ms: seq<ExtendedModel>)
    ensures forall i, j :: 0 <= i < j < |ProviderOrder(ms)| ==> ProviderOrder(ms)[i] != ProviderOrder(ms)[j]
  {
    if |ms| > 0 {
      ProviderOrderDistinct(ms[..|ms| - 1]);
    }
  }

  /** `groupModelsByProvider(models)`: the groups keyed by provider name
      together with the order in which their keys were created. */
  method GroupModelsByProvider(models: seq<ExtendedModel>)
    returns (groups: map<string, seq<ExtendedModel>>, providers: seq<string>)
    ensures forall p :: p in groups <==> InGroup(models, p) != []
    ensures forall p :: p in groups ==> groups[p] == InGroup(models, p)
    ensures providers == ProviderOrder(models)
  {
    var enabled := EnabledModels(models);
    groups, providers := map[], [];
    var k := 0;
    while k < |enabled|
      invariant 0 <= k <= |enabled|
      invariant forall p :: p in groups <==> InGroup(enabled[..k], p) != []
      invariant forall p :: p in groups ==> groups[p] == InGroup(enabled[..k], p)
      invariant providers == ProviderOrder(enabled[..k])
    {
      var m := enabled[k];
      var provider := m.model.provider;
      assert enabled[..k + 1][..k] == enabled[..k];
      ProviderOrderMembers(enabled[..k], provider);
      if provider !in groups {
        groups := groups[provider := []];
        providers := providers + [provider];
      }
      groups := groups[provider := groups[provider] + [m]];
      k := k + 1;
    }
    assert enabled[..k] == enabled;
    forall p | true ensures InGroup(enabled, p) == InGroup(models, p) {
      FilterThenGroup(models, p);
    }
    FilterThenGroup(models, "");
  }

  /** The value after selecting `id`: the current one toggles off. */
  function NewValue(current: string, id: string): (v: string)
    ensures v == "" <==> id == current || id == ""
    ensures v != "" ==> v == id && v != current
  {
    if id == current then "" else id
  }

  /** Selecting the same entry twice from nothing, or from itself, returns to
      where it started. */
  lemma SelectTwice(current: string, id: string)
    ensures NewValue(NewValue(current, id), id) == if current == id || current == "" then current else ""
  {
  }

  /** `models.find(model => createModelId(model) === value)`. */
  function FindModel(ms: seq<ExtendedModel>, value: string, createModelId: JsValue -> string)
    : (r: Option<ExtendedModel>)
    ensures r.None? <==> forall i :: 0 <= i < |ms| ==> createModelId(ToJs(ms[i])) != value
    ensures r.Some? ==> exists i :: 0 <= i < |ms| && ms[i] == r.value
                                 && createModelId(ToJs(ms[i])) == value
                                 && forall j :: 0 <= j < i ==> createModelId(ToJs(ms[j])) != value
  {
    if |ms| == 0 then None
    else if createModelId(ToJs(ms[0])) == value then Some(ms[0])
    else
      var r := FindModel(ms[1..], value, createModelId);
      assert forall i :: 1 <= i < |ms| ==> ms[1..][i - 1] == ms[i];
      if r.None? then r
      else
        var i :| 0 <= i < |ms[1..]| && ms[1..][i] == r.value && createModelId(ToJs(ms[1..][i])) == value
                 && forall j :: 0 <= j < i ==> createModelId(ToJs(ms[1..][j])) != value;
        assert ms[i + 1] == r.value;
        r
  }

  /** What the restore effect does with a saved cookie text: `None` leaves the
      value alone and clears the cookie, `Some(v)` sets the value. */
  function RestoredValue(saved: string, parse: string -> Option<JsValue>, createModelId: JsValue -> string)
    : (r: Option<string>)
    requires saved != ""
    ensures r.Some? <==> parse(saved).Some? && !IsNullish(parse(saved).value)
                         && !Falsy(Field(parse(saved).value, "id"))
                         && !Falsy(Field(parse(saved).value, "providerId"))
  {
    match parse(saved)
    case None => None
    case Some(model) =>
      if IsNullish(model) then None
      else if !Falsy(Field(model, "id")) && !Falsy(Field(model, "providerId")) then
        Some(createModelId(model))
      else None
  }

  /** `createModelId` looks only at the id and the provider id. */
  ghost predicate IdFromIdentity(createModelId: JsValue -> string) {
    forall a: JsValue, b: JsValue :: Get(a, "id") == Get(b, "id") && Get(a, "providerId") == Get(b, "providerId")
      ==> createModelId(a) == createModelId(b)
  }

  /** A selection written to the cookie is restored on the next mount,
      provided the model's id and provider id are non-empty (an empty one is
      falsy and makes the effect clear the cookie instead). */
  lemma SaveThenRestore(m: ExtendedModel, parse: string -> Option<JsValue>,
                        stringify: JsValue -> string, createModelId: JsValue -> string)
    requires stringify(SavedRecord(m)) != ""
    requires parse(stringify(SavedRecord(m))) == Some(SavedRecord(m))
    requires IdFromIdentity(createModelId)
    ensures RestoredValue(stringify(SavedRecord(m)), parse, createModelId)
            == if m.model.id != "" && m.model.providerId != "" then Some(createModelId(ToJs(m))) else None
  {
    assert Get(SavedRecord(m), "id") == Get(ToJs(m), "id");
    assert Get(SavedRecord(m), "providerId") == Get(ToJs(m), "providerId");
  }

  /** The cookie record has no `toolCallType`, so the chat endpoint streams a
      saved model with the manual strategy even when the model is native. */
  lemma SavedRecordStreamsManually(m: ExtendedModel)
    ensures ChatRoute.StrategyFor(SavedRecord(m)) == ChatRoute.ManualToolCalling
    ensures Get(SavedRecord(m), "enabled") == Normal(Undefined)
  {
  }

  class ModelSelectorState {
    const models: seq<ExtendedModel>
    var open: bool
    var value: string
    /** The `selectedModel` cookie; "" when absent or cleared. */
    var cookie: string

    constructor (models: seq<ExtendedModel>, cookie: string)
      ensures this.models == models && !open && value == "" && this.cookie == cookie
    {
      this.models := models;
      open := false;
      value := "";
      this.cookie := cookie;
    }

    /** The mount effect: a saved model with an id and a provider id sets the
        value; anything else non-empty is cleared. */
    method RestoreSavedModel(parse: string -> Option<JsValue>, createModelId: JsValue -> string)
      modifies this
      ensures open == old(open)
      ensures old(cookie) == "" ==> value == old(value) && cookie == old(cookie)
      ensures old(cookie) != "" ==>
        match RestoredValue(old(cookie), parse, createModelId)
        case Some(v) => value == v && cookie == old(cookie)
        case None => value == old(value) && cookie == ""
    {
      if cookie == "" {
        return;
      }
      var parsed := parse(cookie);
      if parsed.None? {
        cookie := "";
        return;
      }
      var model := parsed.value;
      if IsNullish(model) {
        cookie := "";
      } else if !Falsy(Field(model, "id")) && !Falsy(Field(model, "providerId")) {
        value := createModelId(model);
      } else {
        cookie := "";
      }
    }

    /** `handleModelSelect(id)`: toggles the value, saves the matching model
        or clears the cookie, and closes the popover. */
    method HandleModelSelect(id: string, createModelId: JsValue -> string, stringify: JsValue -> string)
      modifies this
      ensures value == NewValue(old(value), id)
      ensures match FindModel(models, value, createModelId)
              case Some(m) => cookie == stringify(SavedRecord(m))
              case None => cookie == ""
      ensures !open
    {
      var newValue := if id == value then "" else id;
      value := newValue;
      var selected := FindModel(models, newValue, createModelId);
      if selected.Some? {
        cookie := stringify(SavedRecord(selected.value));
      } else {
        cookie := "";
      }
      open := false;
    }
  }
}
