/** The model registry of lib/config/models.ts: a runtime type guard for model
    descriptors and the all-or-nothing loading of the bundled model list. */
module ModelConfig {
  import opened Js
  import opened Wrappers

  datatype ToolCallType = Native | Manual

  /** A model descriptor as the `Model` type declares it. */
  datatype Model = Model(
    id: string,
    name: string,
    provider: string,
    providerId: string,
    enabled: bool,
    toolCallType: ToolCallType,
    toolCallModel: Option<string>)

  function ToolCallTypeName(t: ToolCallType): string {
    match t
    case Native => "native"
    case Manual => "manual"
  }

  /** The JSON object that carries a descriptor; an absent `toolCallModel`
      is an absent field. */
  function Encode(m: Model): (v: JsValue)
    ensures v.Obj?
  {
    var required := map[
      "id" := Str(m.id),
      "name" := Str(m.name),
      "provider" := Str(m.provider),
      "providerId" := Str(m.providerId),
      "enabled" := Bool(m.enabled),
      "toolCallType" := Str(ToolCallTypeName(m.toolCallType))];
    match m.toolCallModel
    case None => Obj(required)
    case Some(t) => Obj(required["toolCallModel" := Str(t)])
  }

  /** The conjunction `validateModel` evaluates on a value whose properties
      can be read. */
  predicate HasModelShape(v: JsValue)
    requires !IsNullish(v)
  {
    && TypeOf(Field(v, "id")) == "string"
    && TypeOf(Field(v, "name")) == "string"
    && TypeOf(Field(v, "provider")) == "string"
    && TypeOf(Field(v, "providerId")) == "string"
    && TypeOf(Field(v, "enabled")) == "boolean"
    && (Field(v, "toolCallType") == Str("native") || Field(v, "toolCallType") == Str("manual"))
    && (Field(v, "toolCallModel") == Undefined || TypeOf(Field(v, "toolCallModel")) == "string")
  }

  /** `validateModel(model)`: reading `model.id` throws on null and undefined;
      otherwise the field and enum checks decide. Only objects pass. */
  function ValidateModel(v: JsValue): (r: Completion<bool>)
    ensures r.Throw? <==> IsNullish(v)
    ensures r == Normal(true) ==> v.Obj?
  {
    if IsNullish(v) then Throw(PropertyError(v)) else Normal(HasModelShape(v))
  }

  predicate IsValid(v: JsValue) {
    ValidateModel(v) == Normal(true)
  }

  /** The typed descriptor a value that passed `validateModel` stands for. */
  function Decode(v: JsValue): (m: Model)
    requires IsValid(v)
  {
    var tct := if Field(v, "toolCallType") == Str("native") then Native else Manual;
    var tcm := if Field(v, "toolCallModel") == Undefined then None
               else Some(Field(v, "toolCallModel").s);
    Model(Field(v, "id").s, Field(v, "name").s, Field(v, "provider").s,
          Field(v, "providerId").s, Field(v, "enabled").b, tct, tcm)
  }

  /** Two values that read the same on every field of a descriptor. */
  predicate SameModelFields(a: JsValue, b: JsValue) {
    && Get(a, "id") == Get(b, "id")
    && Get(a, "name") == Get(b, "name")
    && Get(a, "provider") == Get(b, "provider")
    && Get(a, "providerId") == Get(b, "providerId")
    && Get(a, "enabled") == Get(b, "enabled")
    && Get(a, "toolCallType") == Get(b, "toolCallType")
    && Get(a, "toolCallModel") == Get(b, "toolCallModel")
  }

  /** Every well-typed descriptor passes the guard and decodes to itself. */
  lemma EncodeIsValid(m: Model)
    ensures IsValid(Encode(m))
    ensures Decode(Encode(m)) == m
  {
    var v := Encode(m);
    assert Field(v, "toolCallType") == Str(ToolCallTypeName(m.toolCallType));
    match m.toolCallModel
    case None => assert Field(v, "toolCallModel") == Undefined;
    case Some(t) => assert Field(v, "toolCallModel") == Str(t);
  }

  /** Conversely, a value that passes the guard reads exactly like the
      encoding of its decoded descriptor: the guard is a type test for `Model`. */
  lemma ValidIsEncoded(v: JsValue)
    requires IsValid(v)
    ensures SameModelFields(Encode(Decode(v)), v)
  {
    var m := Decode(v);
    var e := Encode(m);
    assert Get(e, "toolCallType") == Get(v, "toolCallType");
    match m.toolCallModel
    case None => assert Get(e, "toolCallModel") == Normal(Undefined);
    case Some(t) => assert Get(e, "toolCallModel") == Normal(Str(t));
  }

  /** `items.every(validateModel)`: stops at the first element that fails or
      throws, and a throw propagates. */
  function Every(items: seq<JsValue>): (r: Completion<bool>)
    ensures r == Normal(true) <==> forall i :: 0 <= i < |items| ==> IsValid(items[i])
    ensures r.Throw? ==> exists i :: 0 <= i < |items| && IsNullish(items[i])
  {
    if |items| == 0 then Normal(true)
    else
      match ValidateModel(items[0])
      case Throw(e) => Throw(e)
      case Normal(ok) =>
        if !ok then Normal(false)
        else
          var rest := Every(items[1..]);
          assert forall i :: 1 <= i < |items| ==> items[1..][i - 1] == items[i];
          rest
  }

  /** `getModels()` over the bundled configuration `config`: the `models`
      list itself when it is an array whose every entry validates, otherwise
      the empty list; a thrown error is caught and also yields the empty list. */
  function GetModels(config: JsValue): (r: seq<JsValue>)
    ensures r == [] || Get(config, "models") == Normal(Arr(r))
    ensures forall i :: 0 <= i < |r| ==> IsValid(r[i])
    ensures (Get(config, "models").Normal? && Get(config, "models").value.Arr?
             && forall i :: 0 <= i < |Get(config, "models").value.items| ==>
                  IsValid(Get(config, "models").value.items[i]))
            ==> Get(config, "models") == Normal(Arr(r))
  {
    match Get(config, "models")
    case Throw(_) => []
    case Normal(models) =>
      if !models.Arr? then []
      else
        match Every(models.items)
        case Normal(true) => models.items
        case _ => []
  }

  /** The list is not filtered: a single entry that fails validation empties
      the whole registry, however many entries are valid. */
  lemma GetModelsAllOrNothing(config: JsValue, i: nat)
    requires Get(config, "models").Normal? && Get(config, "models").value.Arr?
    requires i < |Get(config, "models").value.items|
    requires !IsValid(Get(config, "models").value.items[i])
    ensures GetModels(config) == []
  {
    var items := Get(config, "models").value.items;
    assert Every(items) != Normal(true);
  }

  /** A valid descriptor followed by `null` yields no models at all. */
  lemma NullEntryEmptiesRegistry(m: Model)
    ensures GetModels(Obj(map["models" := Arr([Encode(m), Null])])) == []
  {
    GetModelsAllOrNothing(Obj(map["models" := Arr([Encode(m), Null])]), 1);
  }

  /** A list of well-typed descriptors is returned unchanged. */
  lemma GetModelsOfEncoded(ms: seq<Model>)
    ensures GetModels(Obj(map["models" := Arr(seq(|ms|, i requires 0 <= i < |ms| => Encode(ms[i])))]))
            == seq(|ms|, i requires 0 <= i < |ms| => Encode(ms[i]))
  {
    var items := seq(|ms|, i requires 0 <= i < |ms| => Encode(ms[i]));
    forall i | 0 <= i < |items| ensures IsValid(items[i]) {
      EncodeIsValid(ms[i]);
    }
  }
}
