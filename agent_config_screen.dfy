/** The agent-configuration screen: the list of configurations, the form that
    creates or edits one, and its draft list of emergency triggers. */
module AgentConfigScreen {
  import opened Wrappers
  import opened Tables
  import opened Api
  import Text
  import Models

  // ---------------------------------------------------------------------
  // The form's draft
  // ---------------------------------------------------------------------

  /** The fields the form edits, as the frontend holds them. */
  datatype Draft = Draft(
    name: string,
    scenarioType: string,
    systemPrompt: string,
    conversationFlow: string,
    emergencyTriggers: seq<string>,
    maxRetries: int,
    interruptionSensitivity: real,
    backchannelEnabled: bool,
    fillerWordsEnabled: bool)

  /** `defaultConfig`: the draft of a new configuration. */
  const DefaultConfig: Draft := Draft("", "check_in", "", "", [], 3, 0.5, true, true)

  /** The draft of a stored configuration: its own fields. */
  function DraftOf(c: AgentConfigRow): Draft {
    Draft(c.name, c.scenarioType.Name(), c.systemPrompt, c.conversationFlow, c.emergencyTriggers,
          c.maxRetries, c.interruptionSensitivity, c.backchannelEnabled, c.fillerWordsEnabled)
  }

  /** `useState(config || defaultConfig)`: the form starts from the edited
      configuration, or from the defaults when it creates one. */
  function InitialDraft(config: Option<AgentConfigRow>): (d: Draft)
    ensures config.None? ==> d == DefaultConfig && d.emergencyTriggers == [] && d.maxRetries == 3
    // an edit form shows every field of the stored configuration
    ensures config.Some? ==>
              && d.name == config.value.name
              && d.scenarioType == config.value.scenarioType.Name()
              && d.systemPrompt == config.value.systemPrompt
              && d.conversationFlow == config.value.conversationFlow
              && d.emergencyTriggers == config.value.emergencyTriggers
              && d.maxRetries == config.value.maxRetries
              && d.interruptionSensitivity == config.value.interruptionSensitivity
              && d.backchannelEnabled == config.value.backchannelEnabled
              && d.fillerWordsEnabled == config.value.fillerWordsEnabled
  {
    match config
    case None => DefaultConfig
    case Some(c) => DraftOf(c)
  }

  /** The default draft agrees with the defaults the backend fills into a new
      configuration: scenario, retries, sensitivity and both switches. */
  lemma DefaultsAgreeWithBackend()
    ensures DefaultConfig.scenarioType == Models.ScenarioType.CheckIn.Name()
    ensures DefaultConfig.maxRetries == Models.DefaultMaxRetries
    ensures DefaultConfig.interruptionSensitivity == Models.DefaultInterruptionSensitivity
    ensures DefaultConfig.backchannelEnabled && DefaultConfig.fillerWordsEnabled
  {
  }

  /** The form's state: the draft and the text of the trigger input. */
  datatype Form = Form(draft: Draft, triggerInput: string)

  /** `addEmergencyTrigger`: an input that is empty after trimming changes
      nothing; otherwise its trimmed text is appended to the triggers and
      the input is cleared. */
  function AddEmergencyTrigger(f: Form): (g: Form)
    ensures Text.Trim(f.triggerInput) == [] ==> g == f
    ensures Text.Trim(f.triggerInput) != [] ==>
              && g.draft.emergencyTriggers == f.draft.emergencyTriggers + [Text.Trim(f.triggerInput)]
              && g.draft == f.draft.(emergencyTriggers := g.draft.emergencyTriggers)
              && g.triggerInput == ""
  {
    var t := Text.Trim(f.triggerInput);
    if t != [] then
      Form(f.draft.(emergencyTriggers := f.draft.emergencyTriggers + [t]), "")
    else
      f
  }

  /** An added trigger has no white space at either end and is never empty,
      and it is the input's text without that white space. */
  lemma AddedTriggerTrimmed(f: Form)
    requires Text.Trim(f.triggerInput) != []
    ensures var ts := AddEmergencyTrigger(f).draft.emergencyTriggers;
            var t := ts[|ts| - 1];
            && t != [] && !Text.IsSpace(t[0]) && !Text.IsSpace(t[|t| - 1])
            && exists i, j :: 0 <= i <= j <= |f.triggerInput| && t == f.triggerInput[i..j]
  {
  }

  /** `filter((_, i) => i !== index)`: the elements whose position is not `index`. */
  function RemoveAt(xs: seq<string>, index: int): (r: seq<string>)
    ensures |r| == if 0 <= index < |xs| then |xs| - 1 else |xs|
    decreases |xs|
  {
    if xs == [] then []
    else
      var rest := RemoveAt(xs[1..], index - 1);
      if index == 0 then rest else [xs[0]] + rest
  }

  /** Removing position `index` is cutting it out: the elements before stay,
      the ones after move up by one, and an index outside the list removes
      nothing. */
  lemma {:induction false} RemoveAtCutsOut(xs: seq<string>, index: int)
    ensures 0 <= index < |xs| ==> RemoveAt(xs, index) == xs[..index] + xs[index + 1..]
    ensures !(0 <= index < |xs|) ==> RemoveAt(xs, index) == xs
    decreases |xs|
  {
    if xs != [] {
      RemoveAtCutsOut(xs[1..], index - 1);
      if index > 0 && index < |xs| {
        assert xs[1..][..index - 1] == xs[1..index];
        assert xs[1..][index..] == xs[index + 1..];
        assert [xs[0]] + xs[1..index] == xs[..index];
      } else if index != 0 {
        assert [xs[0]] + xs[1..] == xs;
      }
    }
  }

  /** `removeEmergencyTrigger`: only the triggers change. */
  function RemoveEmergencyTrigger(f: Form, index: int): (g: Form)
    ensures g.triggerInput == f.triggerInput
    ensures g.draft == f.draft.(emergencyTriggers := RemoveAt(f.draft.emergencyTriggers, index))
  {
    f.(draft := f.draft.(emergencyTriggers := RemoveAt(f.draft.emergencyTriggers, index)))
  }

  /** Adding a trigger and removing it again gives back the triggers. */
  lemma AddThenRemove(f: Form)
    requires Text.Trim(f.triggerInput) != []
    ensures var ts := f.draft.emergencyTriggers;
            RemoveEmergencyTrigger(AddEmergencyTrigger(f), |ts|).draft.emergencyTriggers == ts
  {
    var ts := f.draft.emergencyTriggers;
    var added := ts + [Text.Trim(f.triggerInput)];
    RemoveAtCutsOut(added, |ts|);
    assert added[..|ts|] == ts;
  }

  // ---------------------------------------------------------------------
  // The screen's state
  // ---------------------------------------------------------------------

  /** The request a save sends: an update of the edited configuration or a
      new configuration. */
  datatype SaveRequest = Update(id: string, data: Draft) | Create(data: Draft)

  /** The `AgentConfig` component's state. */
  class Screen {
    var configs: seq<AgentConfigRow>
    var loading: bool
    var editingConfig: Option<AgentConfigRow>
    var showCreateForm: bool

    constructor ()
      ensures configs == [] && loading && editingConfig.None? && !showCreateForm
    {
      configs, loading := [], true;
      editingConfig, showCreateForm := None, false;
    }

    /** `fetchConfigs`: a successful reply replaces the list; loading ends either way. */
    method FetchConfigs(reply: Reply<seq<AgentConfigRow>>)
      modifies this
      ensures reply.Succeeded() ==> configs == reply.data
      ensures !reply.Succeeded() ==> configs == old(configs)
      ensures !loading && editingConfig == old(editingConfig) && showCreateForm == old(showCreateForm)
    {
      if reply.Succeeded() {
        configs := reply.data;
      }
      loading := false;
    }

    /** The edit button of a listed configuration. */
    method StartEditing(c: AgentConfigRow)
      modifies this`editingConfig
      ensures editingConfig == Some(c)
    {
      editingConfig := Some(c);
    }

    /** The create button, and the cancel buttons of the two forms. */
    method ShowCreateForm(show: bool)
      modifies this`showCreateForm
      ensures showCreateForm == show
    {
      showCreateForm := show;
    }

    method CancelEditing()
      modifies this`editingConfig
      ensures editingConfig.None?
    {
      editingConfig := None;
    }

    /** `handleSave`: while editing, the draft updates the edited configuration
        and a successful reply closes the edit form; otherwise it creates a
        configuration and a successful reply hides the create form. A success
        asks for the list again; a failure leaves every form as it was. */
    method HandleSave(data: Draft, reply: Reply<AgentConfigRow>) returns (request: SaveRequest, refetch: bool)
      modifies this`editingConfig, this`showCreateForm
      ensures old(editingConfig).Some? ==> request == Update(old(editingConfig).value.id, data)
      ensures old(editingConfig).None? ==> request == Create(data)
      ensures refetch <==> reply.Succeeded()
      ensures refetch && old(editingConfig).Some? ==> editingConfig.None? && showCreateForm == old(showCreateForm)
      ensures refetch && old(editingConfig).None? ==> !showCreateForm && editingConfig == old(editingConfig)
      ensures !refetch ==> editingConfig == old(editingConfig) && showCreateForm == old(showCreateForm)
    {
      refetch := reply.Succeeded();
      if editingConfig.Some? {
        request := Update(editingConfig.value.id, data);
        if refetch {
          editingConfig := None;
        }
      } else {
        request := Create(data);
        if refetch {
          showCreateForm := false;
        }
      }
    }
  }

  /** `handleDelete`: a declined confirmation sends nothing; otherwise the
      delete is sent and, unless it raised, the list is asked for again. The
      handler sets no state of its own. */
  function HandleDelete(configId: string, confirmed: bool, raised: bool): (r: (Option<string>, bool))
    ensures !confirmed ==> r.0.None? && !r.1
    ensures confirmed ==> r.0 == Some(configId) && r.1 == !raised
    ensures r.1 ==> r.0.Some?
  {
    if !confirmed then (None, false) else (Some(configId), !raised)
  }
}
