/** The request and enum models of the backend (backend/app/models.py), the
    JSON values they are validated from, and pydantic's validation rules for
    them: a required field must be present with the right type, an optional
    one may be missing or null, a field with a default takes the default
    when it is missing, and keys the model does not declare are ignored. */
module Models {
  import opened Wrappers

  // ---------------------------------------------------------------------
  // Enums
  // ---------------------------------------------------------------------

  datatype ScenarioType = CheckIn | Emergency {
    /** The enum's string value. */
    function Name(): string {
      match this
      case CheckIn => "check_in"
      case Emergency => "emergency"
    }
  }

  function ParseScenarioType(s: string): (r: Option<ScenarioType>)
    ensures r.Some? <==> s == "check_in" || s == "emergency"
    ensures r.Some? ==> r.value.Name() == s
  {
    if s == "check_in" then Some(CheckIn)
    else if s == "emergency" then Some(Emergency)
    else None
  }

  /** The scenario enum has exactly the two values `check_in` and `emergency`,
      and converting a value to its string and back gives the value again. */
  lemma ScenarioTypeValues(t: ScenarioType)
    ensures t.Name() in {"check_in", "emergency"}
    ensures ParseScenarioType(t.Name()) == Some(t)
  {
  }

  datatype CallStatus = Initiated | InProgress | Completed | Failed {
    function Name(): string {
      match this
      case Initiated => "initiated"
      case InProgress => "in_progress"
      case Completed => "completed"
      case Failed => "failed"
    }
  }

  function ParseCallStatus(s: string): (r: Option<CallStatus>)
    ensures r.Some? <==> s in {"initiated", "in_progress", "completed", "failed"}
    ensures r.Some? ==> r.value.Name() == s
  {
    if s == "initiated" then Some(Initiated)
    else if s == "in_progress" then Some(InProgress)
    else if s == "completed" then Some(Completed)
    else if s == "failed" then Some(Failed)
    else None
  }

  /** The status enum has exactly four values, each with its own string. */
  lemma CallStatusValues(s: CallStatus, t: CallStatus)
    ensures s.Name() in {"initiated", "in_progress", "completed", "failed"}
    ensures ParseCallStatus(s.Name()) == Some(s)
    ensures s.Name() == t.Name() ==> s == t
  {
  }

  // ---------------------------------------------------------------------
  // JSON values and timestamps
  // ---------------------------------------------------------------------

  /** A JSON value as Python sees it after decoding (floats are reals). */
  datatype Value =
    | Null
    | Bool(b: bool)
    | Int(i: int)
    | Real(r: real)
    | Str(s: string)
    | Array(items: seq<Value>)
    | Object(fields: map<string, Value>)

  type Dict = map<string, Value>

  /** Python truthiness: None, False, 0, 0.0 and empty strings, lists and dicts are false. */
  predicate Truthy(v: Value) {
    match v
    case Null => false
    case Bool(b) => b
    case Int(i) => i != 0
    case Real(r) => r != 0.0
    case Str(s) => s != ""
    case Array(items) => items != []
    case Object(fields) => fields != map[]
  }

  /** `d.get(k)`: the value under `k`, or None when the key is missing. */
  function Get(d: Dict, k: string): (v: Value)
    ensures k !in d ==> v == Null
    ensures k in d ==> v == d[k]
  {
    if k in d then d[k] else Null
  }

  function StrValues(xs: seq<string>): (r: seq<Value>)
    ensures |r| == |xs| && forall i :: 0 <= i < |xs| ==> r[i] == Str(xs[i])
  {
    seq(|xs|, i requires 0 <= i < |xs| => Str(xs[i]))
  }

  /** The strings of a JSON list, or None when some element is not a string. */
  function Strings(items: seq<Value>): (r: Option<seq<string>>)
    ensures r.Some? <==> forall i :: 0 <= i < |items| ==> items[i].Str?
    ensures r.Some? ==> StrValues(r.value) == items
    decreases |items|
  {
    if items == [] then Some([])
    else if !items[0].Str? then None
    else
      var tail := items[1..];
      assert forall i :: 1 <= i < |items| ==> items[i] == tail[i - 1];
      match Strings(tail)
      case None => None
      case Some(rest) =>
        StrValuesCons(items[0].s, rest);
        assert items == [items[0]] + tail;
        Some([items[0].s] + rest)
  }

  lemma StrValuesCons(x: string, xs: seq<string>)
    ensures StrValues([x] + xs) == [Str(x)] + StrValues(xs)
  {
  }

  lemma StringsOfStrValues(xs: seq<string>)
    ensures Strings(StrValues(xs)) == Some(xs)
  {
    var r := Strings(StrValues(xs));
    assert r.Some?;
    assert |r.value| == |xs| && forall i :: 0 <= i < |xs| ==> r.value[i] == xs[i] by {
      assert StrValues(r.value) == StrValues(xs);
      assert |StrValues(r.value)| == |r.value|;
      forall i | 0 <= i < |xs| ensures r.value[i] == xs[i] {
        assert StrValues(r.value)[i] == Str(r.value[i]);
      }
    }
    assert r.value == xs;
  }

  /** A point in time as the source receives it: a missing or empty field,
      text that is not an ISO-8601 date, or a parsed instant in seconds. */
  datatype Timestamp = Absent | Unparseable(text: string) | At(seconds: int)

  // ---------------------------------------------------------------------
  // Field validation
  // ---------------------------------------------------------------------

  datatype ValidationError = MissingField(field: string) | WrongType(field: string)

  function RequiredStr(body: Dict, key: string): (r: Result<string, ValidationError>)
    ensures r.Success? <==> key in body && body[key].Str?
    ensures r.Success? ==> body[key] == Str(r.value)
  {
    if key !in body then Failure(MissingField(key))
    else if body[key].Str? then Success(body[key].s)
    else Failure(WrongType(key))
  }

  /** A field typed `Optional[...] = None`: missing and null both give None. */
  function Optional<T>(body: Dict, key: string, read: Value -> Option<T>): (r: Result<Option<T>, ValidationError>)
    ensures key !in body || body[key] == Null ==> r == Success(None)
  {
    if key !in body || body[key] == Null then Success(None)
    else match read(body[key])
      case Some(x) => Success(Some(x))
      case None => Failure(WrongType(key))
  }

  /** A field declared with a default value: missing gives the default; null is an error. */
  function Defaulted<T>(body: Dict, key: string, read: Value -> Option<T>, default: T): (r: Result<T, ValidationError>)
    ensures key !in body ==> r == Success(default)
  {
    if key !in body then Success(default)
    else match read(body[key])
      case Some(x) => Success(x)
      case None => Failure(WrongType(key))
  }

  function ReadStr(v: Value): Option<string> {
    if v.Str? then Some(v.s) else None
  }

  function ReadStrings(v: Value): Option<seq<string>> {
    if v.Array? then Strings(v.items) else None
  }

  function ReadInt(v: Value): Option<int> {
    if v.Int? then Some(v.i) else None
  }

  /** pydantic's `float` accepts JSON integers as well. */
  function ReadReal(v: Value): Option<real> {
    if v.Real? then Some(v.r) else if v.Int? then Some(v.i as real) else None
  }

  function ReadBool(v: Value): Option<bool> {
    if v.Bool? then Some(v.b) else None
  }

  // ---------------------------------------------------------------------
  // AgentConfigCreate
  // ---------------------------------------------------------------------

  const DefaultMaxRetries: int := 3
  const DefaultInterruptionSensitivity: real := 0.5

  datatype AgentConfigCreate = AgentConfigCreate(
    name: string,
    scenarioType: ScenarioType,
    systemPrompt: string,
    conversationFlow: string,
    emergencyTriggers: seq<string>,
    maxRetries: int,
    interruptionSensitivity: real,
    backchannelEnabled: bool,
    fillerWordsEnabled: bool)
  {
    /** pydantic's `.dict()`: all nine fields. */
    function Dict(): (d: Dict)
      ensures d.Keys == CreateFields
    {
      map[
        "name" := Str(name),
        "scenario_type" := Str(scenarioType.Name()),
        "system_prompt" := Str(systemPrompt),
        "conversation_flow" := Str(conversationFlow),
        "emergency_triggers" := Array(StrValues(emergencyTriggers)),
        "max_retries" := Int(maxRetries),
        "interruption_sensitivity" := Real(interruptionSensitivity),
        "backchannel_enabled" := Bool(backchannelEnabled),
        "filler_words_enabled" := Bool(fillerWordsEnabled)
      ]
    }
  }

  const CreateFields: set<string> := {
    "name", "scenario_type", "system_prompt", "conversation_flow", "emergency_triggers",
    "max_retries", "interruption_sensitivity", "backchannel_enabled", "filler_words_enabled"
  }

  /** The body has `key` and it holds a string. */
  predicate HasStr(body: Dict, key: string) {
    key in body && body[key].Str?
  }

  /** A JSON list whose every element is a string. */
  predicate IsStringList(v: Value) {
    v.Array? && forall i :: 0 <= i < |v.items| ==> v.items[i].Str?
  }

  function ParseAgentConfigCreate(body: Dict): (r: Result<AgentConfigCreate, ValidationError>)
    // valid iff the four fields without a default are strings (the scenario one
    // of the two enum values) and every defaulted field present has its type
    ensures r.Success? <==>
              && HasStr(body, "name") && HasStr(body, "scenario_type")
              && HasStr(body, "system_prompt") && HasStr(body, "conversation_flow")
              && body["scenario_type"] in {Str("check_in"), Str("emergency")}
              && ("emergency_triggers" in body ==> IsStringList(body["emergency_triggers"]))
              && ("max_retries" in body ==> body["max_retries"].Int?)
              && ("interruption_sensitivity" in body ==>
                    body["interruption_sensitivity"].Real? || body["interruption_sensitivity"].Int?)
              && ("backchannel_enabled" in body ==> body["backchannel_enabled"].Bool?)
              && ("filler_words_enabled" in body ==> body["filler_words_enabled"].Bool?)
    // the required fields carry the body's values
    ensures r.Success? ==>
              && Str(r.value.name) == body["name"]
              && Str(r.value.scenarioType.Name()) == body["scenario_type"]
              && Str(r.value.systemPrompt) == body["system_prompt"]
              && Str(r.value.conversationFlow) == body["conversation_flow"]
    // a defaulted field carries the body's value, or its default when missing
    ensures r.Success? ==>
              && ("emergency_triggers" in body ==>
                    body["emergency_triggers"] == Array(StrValues(r.value.emergencyTriggers)))
              && ("emergency_triggers" !in body ==> r.value.emergencyTriggers == [])
              && ("max_retries" in body ==> body["max_retries"] == Int(r.value.maxRetries))
              && ("max_retries" !in body ==> r.value.maxRetries == DefaultMaxRetries)
              && ("interruption_sensitivity" in body ==>
                    ReadReal(body["interruption_sensitivity"]) == Some(r.value.interruptionSensitivity))
              && ("interruption_sensitivity" !in body ==>
                    r.value.interruptionSensitivity == DefaultInterruptionSensitivity)
              && ("backchannel_enabled" in body ==> body["backchannel_enabled"] == Bool(r.value.backchannelEnabled))
              && ("backchannel_enabled" !in body ==> r.value.backchannelEnabled)
              && ("filler_words_enabled" in body ==> body["filler_words_enabled"] == Bool(r.value.fillerWordsEnabled))
              && ("filler_words_enabled" !in body ==> r.value.fillerWordsEnabled)
  {
    var name :- RequiredStr(body, "name");
    var scenarioText :- RequiredStr(body, "scenario_type");
    var scenario :- match ParseScenarioType(scenarioText)
      case Some(t) => Success(t)
      case None => Failure(WrongType("scenario_type"));
    var systemPrompt :- RequiredStr(body, "system_prompt");
    var flow :- RequiredStr(body, "conversation_flow");
    var triggers :- Defaulted(body, "emergency_triggers", ReadStrings, []);
    var retries :- Defaulted(body, "max_retries", ReadInt, DefaultMaxRetries);
    var sensitivity :- Defaulted(body, "interruption_sensitivity", ReadReal, DefaultInterruptionSensitivity);
    var backchannel :- Defaulted(body, "backchannel_enabled", ReadBool, true);
    var filler :- Defaulted(body, "filler_words_enabled", ReadBool, true);
    Success(AgentConfigCreate(name, scenario, systemPrompt, flow, triggers, retries, sensitivity, backchannel, filler))
  }

  /** Validating a create request's `.dict()` gives the same request back. */
  lemma {:induction false} CreateRoundTrip(c: AgentConfigCreate)
    ensures ParseAgentConfigCreate(c.Dict()) == Success(c)
  {
    ScenarioTypeValues(c.scenarioType);
    StringsOfStrValues(c.emergencyTriggers);
  }

  /** A create request that gives only the required fields gets no emergency
      triggers, three retries, sensitivity 0.5 and both behaviour flags on. */
  lemma CreateDefaults(name: string, scenario: ScenarioType, prompt: string, flow: string)
    ensures ParseAgentConfigCreate(map["name" := Str(name), "scenario_type" := Str(scenario.Name()),
                                       "system_prompt" := Str(prompt), "conversation_flow" := Str(flow)])
         == Success(AgentConfigCreate(name, scenario, prompt, flow, [], 3, 0.5, true, true))
  {
    ScenarioTypeValues(scenario);
  }

  // ---------------------------------------------------------------------
  // AgentConfigUpdate
  // ---------------------------------------------------------------------

  /** An update names no scenario type: the field is not declared, so it can
      never reach the stored row. */
  datatype AgentConfigUpdate = AgentConfigUpdate(
    name: Option<string>,
    systemPrompt: Option<string>,
    conversationFlow: Option<string>,
    emergencyTriggers: Option<seq<string>>,
    maxRetries: Option<int>,
    interruptionSensitivity: Option<real>,
    backchannelEnabled: Option<bool>,
    fillerWordsEnabled: Option<bool>)
  {
    /** The value `.dict()` holds for column `c`: null for a field left None
        and for the columns the update does not declare. */
    function Field(c: Column): (v: Value)
      ensures c !in UpdateColumns ==> v == Null
    {
      match c
      case NameCol => if name.Some? then Str(name.value) else Null
      case SystemPromptCol => if systemPrompt.Some? then Str(systemPrompt.value) else Null
      case ConversationFlowCol => if conversationFlow.Some? then Str(conversationFlow.value) else Null
      case EmergencyTriggersCol =>
        if emergencyTriggers.Some? then Array(StrValues(emergencyTriggers.value)) else Null
      case MaxRetriesCol => if maxRetries.Some? then Int(maxRetries.value) else Null
      case InterruptionSensitivityCol =>
        if interruptionSensitivity.Some? then Real(interruptionSensitivity.value) else Null
      case BackchannelEnabledCol => if backchannelEnabled.Some? then Bool(backchannelEnabled.value) else Null
      case FillerWordsEnabledCol => if fillerWordsEnabled.Some? then Bool(fillerWordsEnabled.value) else Null
      case _ => Null
    }

    /** pydantic's `.dict()`: every declared field, None as null. */
    function Dict(): (d: Dict)
      ensures d.Keys == UpdateFields
    {
      map[
        "name" := OptValue(name, (s: string) => Str(s)),
        "system_prompt" := OptValue(systemPrompt, (s: string) => Str(s)),
        "conversation_flow" := OptValue(conversationFlow, (s: string) => Str(s)),
        "emergency_triggers" := OptValue(emergencyTriggers, (xs: seq<string>) => Array(StrValues(xs))),
        "max_retries" := OptValue(maxRetries, (i: int) => Int(i)),
        "interruption_sensitivity" := OptValue(interruptionSensitivity, (x: real) => Real(x)),
        "backchannel_enabled" := OptValue(backchannelEnabled, (b: bool) => Bool(b)),
        "filler_words_enabled" := OptValue(fillerWordsEnabled, (b: bool) => Bool(b))
      ]
    }
  }

  /** The columns of an agent config, named as the `agent_configs` table and
      the request models name them. */
  datatype Column =
    | IdCol | NameCol | ScenarioTypeCol | SystemPromptCol | ConversationFlowCol | EmergencyTriggersCol
    | MaxRetriesCol | InterruptionSensitivityCol | BackchannelEnabledCol | FillerWordsEnabledCol
    | CreatedAtCol | UpdatedAtCol
  {
    function Name(): string {
      match this
      case IdCol => "id"
      case NameCol => "name"
      case ScenarioTypeCol => "scenario_type"
      case SystemPromptCol => "system_prompt"
      case ConversationFlowCol => "conversation_flow"
      case EmergencyTriggersCol => "emergency_triggers"
      case MaxRetriesCol => "max_retries"
      case InterruptionSensitivityCol => "interruption_sensitivity"
      case BackchannelEnabledCol => "backchannel_enabled"
      case FillerWordsEnabledCol => "filler_words_enabled"
      case CreatedAtCol => "created_at"
      case UpdatedAtCol => "updated_at"
    }
  }

  /** The columns `AgentConfigUpdate` declares. */
  const UpdateColumns: set<Column> := {
    NameCol, SystemPromptCol, ConversationFlowCol, EmergencyTriggersCol, MaxRetriesCol,
    InterruptionSensitivityCol, BackchannelEnabledCol, FillerWordsEnabledCol
  }

  const UpdateFields: set<string> := {
    "name", "system_prompt", "conversation_flow", "emergency_triggers", "max_retries",
    "interruption_sensitivity", "backchannel_enabled", "filler_words_enabled"
  }

  /** Column `c` of an update is the entry `.dict()` holds under the column's name. */
  lemma DictHoldsField(u: AgentConfigUpdate, c: Column)
    requires c in UpdateColumns
    ensures c.Name() in u.Dict() && u.Dict()[c.Name()] == u.Field(c)
  {
    match c
    case NameCol =>
    case SystemPromptCol =>
    case ConversationFlowCol =>
    case EmergencyTriggersCol =>
    case MaxRetriesCol =>
    case InterruptionSensitivityCol =>
    case BackchannelEnabledCol =>
    case FillerWordsEnabledCol =>
  }

  const NoChanges := AgentConfigUpdate(None, None, None, None, None, None, None, None)

  function OptValue<T>(x: Option<T>, f: T -> Value): Value {
    match x
    case Some(v) => f(v)
    case None => Null
  }

  /** `v` has the JSON type pydantic accepts for update column `c`. */
  predicate FitsColumn(c: Column, v: Value) {
    match c
    case NameCol => v.Str?
    case SystemPromptCol => v.Str?
    case ConversationFlowCol => v.Str?
    case EmergencyTriggersCol => IsStringList(v)
    case MaxRetriesCol => v.Int?
    case InterruptionSensitivityCol => v.Real? || v.Int?
    case BackchannelEnabledCol => v.Bool?
    case FillerWordsEnabledCol => v.Bool?
    case _ => false
  }

  /** An optional field passes validation: it is missing, null, or of its column's type. */
  predicate FieldOk(body: Dict, c: Column) {
    c.Name() !in body || body[c.Name()] == Null || FitsColumn(c, body[c.Name()])
  }

  /** The value a validated optional field holds: null when it is missing or
      null, otherwise the body's value, with an integer read as a float in
      the float column. */
  function FieldValue(body: Dict, c: Column): Value {
    if c.Name() !in body then Null
    else if c == InterruptionSensitivityCol && body[c.Name()].Int? then Real(body[c.Name()].i as real)
    else body[c.Name()]
  }

  /** A property of every update column is a property of each of the eight. */
  lemma EachUpdateColumn(P: Column -> bool)
    ensures (forall c :: c in UpdateColumns ==> P(c)) <==>
              P(NameCol) && P(SystemPromptCol) && P(ConversationFlowCol) && P(EmergencyTriggersCol)
              && P(MaxRetriesCol) && P(InterruptionSensitivityCol) && P(BackchannelEnabledCol)
              && P(FillerWordsEnabledCol)
  {
  }

  lemma {:induction false} OptionalOk<T>(body: Dict, c: Column, read: Value -> Option<T>)
    requires forall v :: read(v).Some? <==> FitsColumn(c, v)
    ensures Optional(body, c.Name(), read).Success? <==> FieldOk(body, c)
  {
  }

  function ParseAgentConfigUpdate(body: Dict): (r: Result<AgentConfigUpdate, ValidationError>)
  {
    var name :- Optional(body, "name", ReadStr);
    var systemPrompt :- Optional(body, "system_prompt", ReadStr);
    var flow :- Optional(body, "conversation_flow", ReadStr);
    var triggers :- Optional(body, "emergency_triggers", ReadStrings);
    var retries :- Optional(body, "max_retries", ReadInt);
    var sensitivity :- Optional(body, "interruption_sensitivity", ReadReal);
    var backchannel :- Optional(body, "backchannel_enabled", ReadBool);
    var filler :- Optional(body, "filler_words_enabled", ReadBool);
    Success(AgentConfigUpdate(name, systemPrompt, flow, triggers, retries, sensitivity, backchannel, filler))
  }

  /** The update is valid iff each of the eight optional fields is, and then
      it holds the eight validated values. */
  lemma UpdateParts(body: Dict)
    ensures var r := ParseAgentConfigUpdate(body);
            var n, p, f := Optional(body, "name", ReadStr), Optional(body, "system_prompt", ReadStr),
                           Optional(body, "conversation_flow", ReadStr);
            var t, m := Optional(body, "emergency_triggers", ReadStrings), Optional(body, "max_retries", ReadInt);
            var i, b, w := Optional(body, "interruption_sensitivity", ReadReal),
                           Optional(body, "backchannel_enabled", ReadBool), Optional(body, "filler_words_enabled", ReadBool);
            && (r.Success? <==> n.Success? && p.Success? && f.Success? && t.Success? && m.Success?
                                && i.Success? && b.Success? && w.Success?)
            && (r.Success? ==>
                  r.value == AgentConfigUpdate(n.value, p.value, f.value, t.value, m.value, i.value, b.value, w.value))
  {
  }

  /** pydantic's rule for an update: the body is valid iff every declared
      field that is present and not null has its type. */
  lemma {:induction false} UpdateValidation(body: Dict)
    ensures ParseAgentConfigUpdate(body).Success? <==> forall c :: c in UpdateColumns ==> FieldOk(body, c)
  {
    FieldsValidate(body);
    EachUpdateColumn(c => FieldOk(body, c));
  }

  lemma FieldsValidate(body: Dict)
    ensures ParseAgentConfigUpdate(body).Success? <==>
              FieldOk(body, NameCol) && FieldOk(body, SystemPromptCol) && FieldOk(body, ConversationFlowCol)
              && FieldOk(body, EmergencyTriggersCol) && FieldOk(body, MaxRetriesCol)
              && FieldOk(body, InterruptionSensitivityCol) && FieldOk(body, BackchannelEnabledCol)
              && FieldOk(body, FillerWordsEnabledCol)
  {
    UpdateParts(body);
    OptionalOk(body, NameCol, ReadStr);
    OptionalOk(body, SystemPromptCol, ReadStr);
    OptionalOk(body, ConversationFlowCol, ReadStr);
    OptionalOk(body, EmergencyTriggersCol, ReadStrings);
    OptionalOk(body, MaxRetriesCol, ReadInt);
    OptionalOk(body, InterruptionSensitivityCol, ReadReal);
    OptionalOk(body, BackchannelEnabledCol, ReadBool);
    OptionalOk(body, FillerWordsEnabledCol, ReadBool);
  }

  /** A valid update holds None for a missing or null field and the body's
      value for any other. */
  lemma {:induction false} UpdateFieldValues(body: Dict, c: Column)
    requires ParseAgentConfigUpdate(body).Success? && c in UpdateColumns
    ensures ParseAgentConfigUpdate(body).value.Field(c) == FieldValue(body, c)
  {
    UpdateParts(body);
    var u := ParseAgentConfigUpdate(body).value;
    match c
    case NameCol =>
    case SystemPromptCol =>
    case ConversationFlowCol =>
    case EmergencyTriggersCol =>
    case MaxRetriesCol =>
    case InterruptionSensitivityCol =>
    case BackchannelEnabledCol =>
    case FillerWordsEnabledCol =>
  }

  /** Every update field is optional: the empty body is a valid update that changes nothing. */
  lemma UpdateAllOptional()
    ensures ParseAgentConfigUpdate(map[]) == Success(NoChanges)
  {
  }

  /** Keys the update model does not declare, `scenario_type` among them, are ignored. */
  lemma UpdateIgnoresUndeclared(body: Dict, k: string)
    requires k !in UpdateFields
    ensures ParseAgentConfigUpdate(body) == ParseAgentConfigUpdate(body - {k})
  {
    var b := body - {k};
    OptionalAgrees(body, b, "name", ReadStr);
    OptionalAgrees(body, b, "system_prompt", ReadStr);
    OptionalAgrees(body, b, "conversation_flow", ReadStr);
    OptionalAgrees(body, b, "emergency_triggers", ReadStrings);
    OptionalAgrees(body, b, "max_retries", ReadInt);
    OptionalAgrees(body, b, "interruption_sensitivity", ReadReal);
    OptionalAgrees(body, b, "backchannel_enabled", ReadBool);
    OptionalAgrees(body, b, "filler_words_enabled", ReadBool);
  }

  lemma OptionalAgrees<T>(body: Dict, b: Dict, key: string, read: Value -> Option<T>)
    requires (key in body <==> key in b) && (key in body ==> body[key] == b[key])
    ensures Optional(body, key, read) == Optional(b, key, read)
  {
  }

  /** Validating what `.dict()` produces gives the update back. */
  lemma UpdateRoundTrip(u: AgentConfigUpdate)
    ensures ParseAgentConfigUpdate(u.Dict()) == Success(u)
  {
    var d := u.Dict();
    UpdateParts(d);
    if u.emergencyTriggers.Some? {
      StringsOfStrValues(u.emergencyTriggers.value);
    }
    assert Optional(d, "name", ReadStr) == Success(u.name);
    assert Optional(d, "system_prompt", ReadStr) == Success(u.systemPrompt);
    assert Optional(d, "conversation_flow", ReadStr) == Success(u.conversationFlow);
    assert Optional(d, "emergency_triggers", ReadStrings) == Success(u.emergencyTriggers);
    assert Optional(d, "max_retries", ReadInt) == Success(u.maxRetries);
    assert Optional(d, "interruption_sensitivity", ReadReal) == Success(u.interruptionSensitivity);
    assert Optional(d, "backchannel_enabled", ReadBool) == Success(u.backchannelEnabled);
    assert Optional(d, "filler_words_enabled", ReadBool) == Success(u.fillerWordsEnabled);
  }

  // ---------------------------------------------------------------------
  // CallCreate
  // ---------------------------------------------------------------------

  datatype CallCreate = CallCreate(agentConfigId: string, driverName: string, driverPhone: string, loadNumber: string) {
    function Dict(): Dict {
      map["agent_config_id" := Str(agentConfigId), "driver_name" := Str(driverName),
          "driver_phone" := Str(driverPhone), "load_number" := Str(loadNumber)]
    }
  }

  const CallCreateFields: set<string> := {"agent_config_id", "driver_name", "driver_phone", "load_number"}

  function ParseCallCreate(body: Dict): (r: Result<CallCreate, ValidationError>)
    // all four fields are required strings
    ensures r.Success? <==> forall k :: k in CallCreateFields ==> k in body && body[k].Str?
    ensures r.Success? ==> r.value.Dict() == map k | k in CallCreateFields :: body[k]
  {
    var id :- RequiredStr(body, "agent_config_id");
    var driver :- RequiredStr(body, "driver_name");
    var phone :- RequiredStr(body, "driver_phone");
    var load :- RequiredStr(body, "load_number");
    Success(CallCreate(id, driver, phone, load))
  }

  lemma {:induction false} CallCreateRoundTrip(c: CallCreate)
    ensures ParseCallCreate(c.Dict()) == Success(c)
  {
    var r := ParseCallCreate(c.Dict());
    assert r.Success?;
  }
}
