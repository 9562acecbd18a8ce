/** The three Supabase tables the backend reads and writes (`agent_configs`,
    `calls`, `call_results`), their rows, and the query forms the handlers use:
    select-where returning the rows in table order (so `data[0]` is the first
    match), update-where, delete-where and insert. Ids are the decimal text of
    a serial counter that the store owns, so an inserted row never shares its
    id with another row. */
module Tables {
  import opened Wrappers
  import opened Models
  import Text

  // ---------------------------------------------------------------------
  // Row ids
  // ---------------------------------------------------------------------

  function RowId(n: nat): string {
    Text.NatToString(n)
  }

  /** `id` is the id of a row allocated before the counter reached `n`. */
  predicate IdBelow(id: string, n: nat) {
    Text.AllDigits(id) && Text.ParseNat(id) < n
  }

  lemma {:induction false} FreshRowId(id: string, n: nat)
    requires IdBelow(id, n)
    ensures id != RowId(n)
    ensures IdBelow(id, n + 1) && IdBelow(RowId(n), n + 1)
  {
    Text.ParseNatToString(n);
  }

  // ---------------------------------------------------------------------
  // Rows
  // ---------------------------------------------------------------------

  datatype AgentConfigRow = AgentConfigRow(
    id: string,
    name: string,
    scenarioType: ScenarioType,
    systemPrompt: string,
    conversationFlow: string,
    emergencyTriggers: seq<string>,
    maxRetries: int,
    interruptionSensitivity: real,
    backchannelEnabled: bool,
    fillerWordsEnabled: bool,
    createdAt: int,
    updatedAt: Option<int>)
  {
    /** The value the database returns for column `c` of the row. */
    function Col(c: Column): Value {
      match c
      case IdCol => Str(id)
      case NameCol => Str(name)
      case ScenarioTypeCol => Str(scenarioType.Name())
      case SystemPromptCol => Str(systemPrompt)
      case ConversationFlowCol => Str(conversationFlow)
      case EmergencyTriggersCol => Array(StrValues(emergencyTriggers))
      case MaxRetriesCol => Int(maxRetries)
      case InterruptionSensitivityCol => Real(interruptionSensitivity)
      case BackchannelEnabledCol => Bool(backchannelEnabled)
      case FillerWordsEnabledCol => Bool(fillerWordsEnabled)
      case CreatedAtCol => Int(createdAt)
      case UpdatedAtCol => if updatedAt.Some? then Int(updatedAt.value) else Null
    }
  }

  /** The row that inserting `config.dict()` creates: the database supplies the
      id and `created_at`, and `updated_at` starts out null. */
  function NewConfigRow(id: string, c: AgentConfigCreate, now: int): AgentConfigRow {
    AgentConfigRow(id, c.name, c.scenarioType, c.systemPrompt, c.conversationFlow, c.emergencyTriggers,
                   c.maxRetries, c.interruptionSensitivity, c.backchannelEnabled, c.fillerWordsEnabled, now, None)
  }

  /** The dict `start_call` inserts into `calls`. */
  datatype CallRecord = CallRecord(
    callId: string,
    agentConfigId: string,
    driverName: string,
    driverPhone: string,
    loadNumber: string,
    callStatus: CallStatus)

  datatype CallRow = CallRow(
    id: string,
    callId: string,
    agentConfigId: string,
    driverName: string,
    driverPhone: string,
    loadNumber: string,
    callStatus: CallStatus,
    startedAt: int,
    endedAt: Timestamp,
    duration: Option<int>)

  /** The row inserted for `rec`: the database supplies the id and `started_at`. */
  function NewCallRow(id: string, rec: CallRecord, now: int): CallRow {
    CallRow(id, rec.callId, rec.agentConfigId, rec.driverName, rec.driverPhone, rec.loadNumber,
            rec.callStatus, now, Absent, None)
  }

  /** The columns of `call_results`. */
  datatype ResultColumn =
    | ResultCallIdCol | CallOutcomeCol | DriverStatusCol | CurrentLocationCol | EtaCol
    | EmergencyTypeCol | EmergencyLocationCol | EscalationStatusCol
    | RawTranscriptCol | StructuredDataCol | ProcessingStatusCol
  {
    function Name(): string {
      match this
      case ResultCallIdCol => "call_id"
      case CallOutcomeCol => "call_outcome"
      case DriverStatusCol => "driver_status"
      case CurrentLocationCol => "current_location"
      case EtaCol => "eta"
      case EmergencyTypeCol => "emergency_type"
      case EmergencyLocationCol => "emergency_location"
      case EscalationStatusCol => "escalation_status"
      case RawTranscriptCol => "raw_transcript"
      case StructuredDataCol => "structured_data"
      case ProcessingStatusCol => "processing_status"
    }
  }

  /** The dict `process_completed_call` inserts into `call_results`;
      `callId` refers to the `id` of a `calls` row. */
  datatype CallResultRecord = CallResultRecord(
    callId: string,
    callOutcome: Value,
    driverStatus: Value,
    currentLocation: Value,
    eta: Value,
    emergencyType: Value,
    emergencyLocation: Value,
    escalationStatus: Value,
    rawTranscript: Value,
    structuredData: Dict,
    processingStatus: string)
  {
    /** The value the record holds for column `c`. */
    function Col(c: ResultColumn): Value {
      match c
      case ResultCallIdCol => Str(callId)
      case CallOutcomeCol => callOutcome
      case DriverStatusCol => driverStatus
      case CurrentLocationCol => currentLocation
      case EtaCol => eta
      case EmergencyTypeCol => emergencyType
      case EmergencyLocationCol => emergencyLocation
      case EscalationStatusCol => escalationStatus
      case RawTranscriptCol => rawTranscript
      case StructuredDataCol => Object(structuredData)
      case ProcessingStatusCol => Str(processingStatus)
    }
  }

  datatype CallResultRow = CallResultRow(id: string, rec: CallResultRecord)

  // ---------------------------------------------------------------------
  // Query forms over a table
  // ---------------------------------------------------------------------

  /** `select ... eq(...)`, keeping the position of the first matching row. */
  function FindFirst<T>(t: seq<T>, p: T -> bool): (r: Option<nat>)
    ensures r.Some? ==> r.value < |t| && p(t[r.value]) && forall j :: 0 <= j < r.value ==> !p(t[j])
    ensures r.None? ==> forall j :: 0 <= j < |t| ==> !p(t[j])
  {
    FindFrom(t, p, 0)
  }

  function FindFrom<T>(t: seq<T>, p: T -> bool, start: nat): (r: Option<nat>)
    requires start <= |t|
    requires forall j :: 0 <= j < start ==> !p(t[j])
    ensures r.Some? ==> start <= r.value < |t| && p(t[r.value]) && forall j :: 0 <= j < r.value ==> !p(t[j])
    ensures r.None? ==> forall j :: 0 <= j < |t| ==> !p(t[j])
    decreases |t| - start
  {
    if start == |t| then None
    else if p(t[start]) then Some(start)
    else FindFrom(t, p, start + 1)
  }

  /** `update(...).eq(...)`: every matching row is rewritten by `f`, the others stay. */
  function UpdateWhere<T>(t: seq<T>, p: T -> bool, f: T -> T): (r: seq<T>)
    ensures |r| == |t|
    ensures forall i :: 0 <= i < |t| ==> r[i] == if p(t[i]) then f(t[i]) else t[i]
  {
    seq(|t|, i requires 0 <= i < |t| => if p(t[i]) then f(t[i]) else t[i])
  }

  /** `delete().eq(...)`: the rows that do not match, in their order. */
  function DeleteWhere<T(!new)>(t: seq<T>, p: T -> bool): (r: seq<T>)
    ensures forall x :: x in r <==> x in t && !p(x)
    ensures |r| <= |t|
    decreases |t|
  {
    if t == [] then [] else (if p(t[0]) then [] else [t[0]]) + DeleteWhere(t[1..], p)
  }

  /** A row that does not match is kept as often as it occurs, a matching one never. */
  lemma {:induction false} DeleteWhereCounts<T(!new)>(t: seq<T>, p: T -> bool, x: T)
    ensures multiset(DeleteWhere(t, p))[x] == if p(x) then 0 else multiset(t)[x]
    decreases |t|
  {
    if t != [] {
      assert t == [t[0]] + t[1..];
      DeleteWhereCounts(t[1..], p, x);
    }
  }

  /** Deleting from two runs of rows deletes from each in place: the kept
      rows of the first run all come before those of the second. */
  lemma {:induction false} DeleteWhereAppend<T(!new)>(t1: seq<T>, t2: seq<T>, p: T -> bool)
    ensures DeleteWhere(t1 + t2, p) == DeleteWhere(t1, p) + DeleteWhere(t2, p)
    decreases |t1|
  {
    if t1 != [] {
      var head := if p(t1[0]) then [] else [t1[0]];
      assert (t1 + t2)[0] == t1[0] && (t1 + t2)[1..] == t1[1..] + t2;
      assert DeleteWhere(t1 + t2, p) == head + DeleteWhere(t1[1..] + t2, p);
      assert DeleteWhere(t1, p) == head + DeleteWhere(t1[1..], p);
      DeleteWhereAppend(t1[1..], t2, p);
    } else {
      assert t1 + t2 == t2;
    }
  }

  // ---------------------------------------------------------------------
  // The `eq(...)` filters the handlers use
  // ---------------------------------------------------------------------

  function HasCallId(callId: string): CallRow -> bool {
    (c: CallRow) => c.callId == callId
  }

  function HasRowId(id: string): CallRow -> bool {
    (c: CallRow) => c.id == id
  }

  function IsConfig(id: string): AgentConfigRow -> bool {
    (c: AgentConfigRow) => c.id == id
  }

  /** The config with id `id` that `select("*").eq("id", id)` returns first. */
  function FindConfig(configs: seq<AgentConfigRow>, id: string): (r: Option<AgentConfigRow>)
    ensures r.Some? ==> r.value in configs && r.value.id == id
    ensures r.None? <==> forall c :: c in configs ==> c.id != id
  {
    match FindFirst(configs, IsConfig(id))
    case Some(i) => Some(configs[i])
    case None => None
  }
  /** No two configs share an id. */
  ghost predicate ConfigIdsDistinct(configs: seq<AgentConfigRow>) {
    forall i, j :: 0 <= i < j < |configs| ==> configs[i].id != configs[j].id
  }

  /** With distinct ids the config `FindConfig` returns is the only one with its id. */
  lemma OnlyConfigWithId(configs: seq<AgentConfigRow>, id: string, c: AgentConfigRow)
    requires ConfigIdsDistinct(configs)
    requires c in configs && c.id == id
    ensures FindConfig(configs, id) == Some(c)
  {
    var i :| 0 <= i < |configs| && configs[i] == c;
    var k := FindFirst(configs, IsConfig(id)).value;
    assert IsConfig(id)(configs[i]);
    assert k == i;
  }

  /** Deleting rows keeps the remaining config ids distinct. */
  lemma {:induction false} DeleteKeepsIdsDistinct(configs: seq<AgentConfigRow>, p: AgentConfigRow -> bool)
    requires ConfigIdsDistinct(configs)
    ensures ConfigIdsDistinct(DeleteWhere(configs, p))
    decreases |configs|
  {
    if configs != [] {
      var rest := DeleteWhere(configs[1..], p);
      DeleteKeepsIdsDistinct(configs[1..], p);
      forall x | x in rest ensures x.id != configs[0].id {
        var k :| 0 <= k < |configs[1..]| && configs[1..][k] == x;
        assert configs[k + 1] == x;
      }
      var r := DeleteWhere(configs, p);
      if !p(configs[0]) {
        assert r == [configs[0]] + rest;
        forall i, j | 0 <= i < j < |r| ensures r[i].id != r[j].id {
          if i == 0 {
            assert r[j] == rest[j - 1] && rest[j - 1] in rest;
          } else {
            assert r[i] == rest[i - 1] && r[j] == rest[j - 1];
          }
        }
      }
    }
  }

  /** `FindConfig` picks the first config with the id, as `.find` does. */
  lemma FindConfigFirst(configs: seq<AgentConfigRow>, id: string, i: nat)
    requires i < |configs| && configs[i].id == id
    requires forall j :: 0 <= j < i ==> configs[j].id != id
    ensures FindConfig(configs, id) == Some(configs[i])
  {
    assert IsConfig(id)(configs[i]);
  }


  // ---------------------------------------------------------------------
  // The store
  // ---------------------------------------------------------------------

  class Db {
    var agentConfigs: seq<AgentConfigRow>
    var calls: seq<CallRow>
    var callResults: seq<CallResultRow>
    /** The next value of the id counter. */
    var nextId: nat

    /** Every id was drawn from the counter, and no two rows of a table share one. */
    ghost predicate Valid()
      reads this
    {
      && (forall i :: 0 <= i < |agentConfigs| ==> IdBelow(agentConfigs[i].id, nextId))
      && (forall i :: 0 <= i < |calls| ==> IdBelow(calls[i].id, nextId))
      && (forall i :: 0 <= i < |callResults| ==> IdBelow(callResults[i].id, nextId))
      && ConfigIdsDistinct(agentConfigs)
      && (forall i, j :: 0 <= i < j < |calls| ==> calls[i].id != calls[j].id)
      && (forall i, j :: 0 <= i < j < |callResults| ==> callResults[i].id != callResults[j].id)
    }

    constructor ()
      ensures Valid()
      ensures agentConfigs == [] && calls == [] && callResults == []
    {
      agentConfigs, calls, callResults := [], [], [];
      nextId := 0;
    }

    /** Draws a fresh id: no row of any table has it. */
    method NewId() returns (id: string)
      requires Valid()
      modifies this`nextId
      ensures Valid()
      ensures id == RowId(old(nextId)) && nextId == old(nextId) + 1
      ensures forall i :: 0 <= i < |agentConfigs| ==> agentConfigs[i].id != id
      ensures forall i :: 0 <= i < |calls| ==> calls[i].id != id
      ensures forall i :: 0 <= i < |callResults| ==> callResults[i].id != id
    {
      id := RowId(nextId);
      forall i | 0 <= i < |agentConfigs| ensures agentConfigs[i].id != id && IdBelow(agentConfigs[i].id, nextId + 1) {
        FreshRowId(agentConfigs[i].id, nextId);
      }
      forall i | 0 <= i < |calls| ensures calls[i].id != id && IdBelow(calls[i].id, nextId + 1) {
        FreshRowId(calls[i].id, nextId);
      }
      forall i | 0 <= i < |callResults| ensures callResults[i].id != id && IdBelow(callResults[i].id, nextId + 1) {
        FreshRowId(callResults[i].id, nextId);
      }
      FreshIdBelowNext(nextId);
      nextId := nextId + 1;
    }

    static lemma FreshIdBelowNext(n: nat)
      ensures IdBelow(RowId(n), n + 1)
    {
      Text.ParseNatToString(n);
    }

    /** Replaces the `calls` table by rows with the same ids in the same places. */
    method SetCalls(newCalls: seq<CallRow>)
      requires Valid()
      requires |newCalls| == |calls| && forall i :: 0 <= i < |calls| ==> newCalls[i].id == calls[i].id
      modifies this`calls
      ensures Valid() && calls == newCalls
    {
      calls := newCalls;
    }

    /** Replaces the `call_results` table by rows with the same ids in the same places. */
    method SetCallResults(newResults: seq<CallResultRow>)
      requires Valid()
      requires |newResults| == |callResults| && forall i :: 0 <= i < |callResults| ==> newResults[i].id == callResults[i].id
      modifies this`callResults
      ensures Valid() && callResults == newResults
    {
      callResults := newResults;
    }

    method InsertAgentConfig(c: AgentConfigCreate, now: int) returns (row: AgentConfigRow)
      requires Valid()
      modifies this
      ensures Valid()
      ensures row == NewConfigRow(RowId(old(nextId)), c, now)
      ensures forall i :: 0 <= i < old(|agentConfigs|) ==> old(agentConfigs)[i].id != row.id
      ensures agentConfigs == old(agentConfigs) + [row]
      ensures calls == old(calls) && callResults == old(callResults)
    {
      var id := NewId();
      FreshIdBelowNext(nextId - 1);
      row := NewConfigRow(id, c, now);
      agentConfigs := agentConfigs + [row];
    }

    method InsertCall(rec: CallRecord, now: int) returns (row: CallRow)
      requires Valid()
      modifies this
      ensures Valid()
      ensures row == NewCallRow(RowId(old(nextId)), rec, now)
      ensures forall i :: 0 <= i < old(|calls|) ==> old(calls)[i].id != row.id
      ensures calls == old(calls) + [row]
      ensures agentConfigs == old(agentConfigs) && callResults == old(callResults)
    {
      var id := NewId();
      FreshIdBelowNext(nextId - 1);
      row := NewCallRow(id, rec, now);
      calls := calls + [row];
    }

    method InsertCallResult(rec: CallResultRecord) returns (row: CallResultRow)
      requires Valid()
      modifies this
      ensures Valid()
      ensures row == CallResultRow(RowId(old(nextId)), rec)
      ensures callResults == old(callResults) + [row]
      ensures agentConfigs == old(agentConfigs) && calls == old(calls)
    {
      var id := NewId();
      FreshIdBelowNext(nextId - 1);
      row := CallResultRow(id, rec);
      callResults := callResults + [row];
    }
  }
}
