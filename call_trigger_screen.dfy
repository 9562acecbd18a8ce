/** The start-call screen: pick an agent configuration, enter the driver and
    the load, and start a test call. */
module CallTriggerScreen {
  import opened Wrappers
  import opened Tables
  import opened Api
  import RetellService

  /** The form: the selected configuration's id, the driver's name and the load number. */
  datatype FormData = FormData(agentConfigId: string, driverName: string, loadNumber: string)

  const InitialForm: FormData := FormData("", "", "")

  /** The `name` attributes of the form's three inputs. */
  datatype Field = AgentConfigIdField | DriverNameField | LoadNumberField

  /** `configs[0]?.id || ''`: the first configuration's id, or "" without one. */
  function FirstId(configs: seq<AgentConfigRow>): string {
    if configs == [] then "" else configs[0].id
  }

  /** The preview is shown when the driver's name and the load number are
      filled in and the selected id names one of the configurations. */
  predicate ShowsPreview(form: FormData, configs: seq<AgentConfigRow>) {
    form.driverName != "" && form.loadNumber != "" && FindConfig(configs, form.agentConfigId).Some?
  }

  /** The line the preview quotes. */
  function PreviewText(form: FormData): string {
    "\"Hi " + form.driverName + ", this is Dispatch with a check call on load " + form.loadNumber
    + ". Can you give me an update on your status?\""
  }

  /** The preview quotes exactly the opening line the backend gives the agent
      for the same driver and load. */
  lemma PreviewIsBeginMessage(form: FormData)
    ensures PreviewText(form)
         == "\"" + RetellService.BeginMessage(RetellService.CallContext(form.driverName, form.loadNumber)) + "\""
  {
    var q := "\"";
    assert "\"Hi " == q + RetellService.BeginPrefix;
    assert ", this is Dispatch with a check call on load " == RetellService.BeginMiddle;
    assert ". Can you give me an update on your status?\"" == RetellService.BeginSuffix + q;
  }

  /** The `CallTrigger` component's state. */
  class Screen {
    var configs: seq<AgentConfigRow>
    var loading: bool
    var formData: FormData

    constructor ()
      ensures configs == [] && !loading && formData == InitialForm
      ensures SubmitDisabled() && !ShowsPreview(formData, configs)
    {
      configs, loading, formData := [], false, InitialForm;
    }

    /** The submit button is disabled while a call is being started or when
        there is no configuration to pick. */
    predicate SubmitDisabled()
      reads this
    {
      loading || |configs| == 0
    }

    /** `fetchConfigs`: a successful reply replaces the list and, when it is
        not empty, selects its first configuration; nothing else changes. */
    method FetchConfigs(reply: Reply<seq<AgentConfigRow>>)
      modifies this
      ensures reply.Succeeded() ==> configs == reply.data
      ensures reply.Succeeded() && reply.data != [] ==>
                formData == old(formData).(agentConfigId := reply.data[0].id)
      ensures !(reply.Succeeded() && reply.data != []) ==> formData == old(formData)
      ensures !reply.Succeeded() ==> configs == old(configs)
      ensures loading == old(loading)
    {
      if reply.Succeeded() {
        configs := reply.data;
        if |reply.data| > 0 {
          formData := formData.(agentConfigId := reply.data[0].id);
        }
      }
    }

    /** `handleInputChange`: the named field takes the new value, the other
        two keep theirs. */
    method HandleInputChange(field: Field, value: string)
      modifies this
      ensures field == AgentConfigIdField ==> formData.agentConfigId == value
      ensures field == DriverNameField ==> formData.driverName == value
      ensures field == LoadNumberField ==> formData.loadNumber == value
      ensures field != AgentConfigIdField ==> formData.agentConfigId == old(formData.agentConfigId)
      ensures field != DriverNameField ==> formData.driverName == old(formData.driverName)
      ensures field != LoadNumberField ==> formData.loadNumber == old(formData.loadNumber)
      ensures configs == old(configs) && loading == old(loading)
    {
      match field {
        case AgentConfigIdField => formData := formData.(agentConfigId := value);
        case DriverNameField => formData := formData.(driverName := value);
        case LoadNumberField => formData := formData.(loadNumber := value);
      }
    }

    /** `handleSubmit` up to the request: without a selected configuration
        nothing is sent and nothing changes; otherwise the form is sent and
        the screen is loading. */
    method StartSubmit() returns (request: Option<FormData>)
      modifies this
      ensures old(formData.agentConfigId) == "" ==> request.None? && loading == old(loading)
      ensures old(formData.agentConfigId) != "" ==> request == Some(old(formData)) && loading
      ensures configs == old(configs) && formData == old(formData)
    {
      if formData.agentConfigId == "" {
        return None;
      }
      loading := true;
      request := Some(formData);
    }

    /** `handleSubmit` once the request is answered: a successful start clears
        the driver and the load and selects the first configuration again;
        a failed one keeps the form. Loading ends on every path. */
    method FinishSubmit(reply: Reply<()>)
      modifies this
      ensures reply.Succeeded() ==> formData == FormData(FirstId(configs), "", "")
      ensures reply.Succeeded() ==> !ShowsPreview(formData, configs)
      ensures !reply.Succeeded() ==> formData == old(formData)
      ensures !loading && configs == old(configs)
    {
      if reply.Succeeded() {
        formData := FormData(FirstId(configs), "", "");
      }
      loading := false;
    }
  }

  /** Once a non-empty list of configurations with non-empty ids has been
      fetched, the guard of `handleSubmit` lets a submission through and the
      button is enabled while nothing is loading. */
  method FetchedConfigsEnableSubmit(s: Screen, configs: seq<AgentConfigRow>)
    requires configs != [] && configs[0].id != "" && !s.loading
    modifies s
    ensures !s.SubmitDisabled() && s.formData.agentConfigId != ""
    ensures FindConfig(s.configs, s.formData.agentConfigId) == Some(configs[0])
  {
    s.FetchConfigs(Answered(true, configs));
    FindConfigFirst(configs, configs[0].id, 0);
  }
}
