/** The Retell AI client (backend/app/services/retell_service.py): the agent
    prompt built for one call, and the create-phone-call payload with its
    opening line, voice settings and metadata. The HTTP requests are outside
    the model; their outcomes are inputs. */
module RetellService {
  import opened Wrappers
  import opened Models
  import opened Tables
  import Text

  // ---------------------------------------------------------------------
  // The dynamic prompt
  // ---------------------------------------------------------------------

  /** The indentation every line of the context template carries. */
  const Indent: string := "        "

  /** The fixed text of the context template, between its five holes
      (driver name, load number, conversation flow, trigger list). */
  const ContextHead: string :=
    "\n" + Indent + "\n" + Indent + "CALL CONTEXT:\n" + Indent + "- Driver Name: "
  const AfterDriver: string := "\n" + Indent + "- Load Number: "
  const AfterLoad: string :=
    "\n" + Indent + "- Call Purpose: Status update and check-in\n" + Indent + "\n" + Indent + "CONVERSATION FLOW:\n" + Indent
  const AfterFlow: string :=
    "\n" + Indent + "\n" + Indent + "EMERGENCY DETECTION:\n" + Indent
    + "If you hear any of these words or phrases, immediately switch to emergency protocol: "
  const ContextTail: string :=
    "\n" + Indent + "\n"
    + Indent + "When an emergency is detected:\n"
    + Indent + "1. Acknowledge the emergency immediately\n"
    + Indent + "2. Ask for their exact location with mile markers if possible\n"
    + Indent + "3. Determine the type of emergency (accident, breakdown, medical, other)\n"
    + Indent + "4. Gather any additional safety information\n"
    + Indent + "5. Assure them that a human dispatcher will call them back immediately\n"
    + Indent + "6. End the call quickly\n"
    + Indent + "\n"
    + Indent + "RESPONSE GUIDELINES:\n"
    + Indent + "- Keep responses concise and professional\n"
    + Indent + "- Ask one question at a time\n"
    + Indent + "- If you get unclear responses, ask for clarification up to 2 times\n"
    + Indent + "- If the driver is uncooperative or unresponsive, politely end the call\n"
    + Indent + "- Always maintain a helpful and professional tone\n"
    + Indent

  /** The context template as its fixed pieces around the four holes
      (driver name, load number, conversation flow, trigger list). */
  datatype Template = Template(head: string, afterDriver: string, afterLoad: string, afterFlow: string, tail: string)

  const ContextTemplate: Template := Template(ContextHead, AfterDriver, AfterLoad, AfterFlow, ContextTail)

  /** `base` followed by the template up to the end of its last hole. */
  function RenderBody(t: Template, base: string, driver: string, load: string, flow: string, triggers: string): string {
    base + t.head + driver + t.afterDriver + load + t.afterLoad + flow + t.afterFlow + triggers
  }

  /** `base` followed by the template with its holes filled. */
  function Render(t: Template, base: string, driver: string, load: string, flow: string, triggers: string): string {
    RenderBody(t, base, driver, load, flow, triggers) + t.tail
  }

  /** The context the route passes: who is called about which load. */
  datatype CallContext = CallContext(driverName: string, loadNumber: string)

  /** The trigger list as the prompt spells it. */
  function TriggerText(triggers: seq<string>): string {
    Text.Join(triggers, ", ")
  }

  /** `_build_dynamic_prompt`: the config's system prompt followed by the call
      context block. */
  function BuildDynamicPrompt(config: AgentConfigRow, ctx: CallContext): string {
    Render(ContextTemplate, config.systemPrompt, ctx.driverName, ctx.loadNumber, config.conversationFlow,
           TriggerText(config.emergencyTriggers))
  }

  /** Where each hole of the template lands in the rendered text. */
  function DriverAt(t: Template, base: string): nat {
    |base| + |t.head|
  }
  function LoadAt(t: Template, base: string, driver: string): nat {
    DriverAt(t, base) + |driver| + |t.afterDriver|
  }
  function FlowAt(t: Template, base: string, driver: string, load: string): nat {
    LoadAt(t, base, driver) + |load| + |t.afterLoad|
  }
  function TriggersAt(t: Template, base: string, driver: string, load: string, flow: string): nat {
    FlowAt(t, base, driver, load) + |flow| + |t.afterFlow|
  }

  /** A slice inside a prefix of `p` is the same slice of `p`. */
  lemma PrefixSlice(q: string, p: string, i: nat, j: nat)
    requires q <= p && i <= j <= |q|
    ensures p[i..j] == q[i..j]
  {
    assert p[..|q|] == q;
    assert p[i..j] == p[..|q|][i..j];
  }

  /** The text appended last to `q` sits at the end of `q + x`. */
  lemma AppendedAt(q: string, x: string)
    ensures (q + x)[|q|..|q| + |x|] == x && q <= q + x
  {
  }

  /** Text found in `q` is found in `q` followed by anything. */
  lemma ExtendKeeps(q: string, x: string, i: nat, n: nat)
    requires i + n <= |q|
    ensures i + n <= |q + x| && (q + x)[i..i + n] == q[i..i + n]
  {
    PrefixSlice(q, q + x, i, i + n);
  }

  /** Every hole's text appears verbatim at its place, after `base`. */
  lemma {:induction false} RenderHoles(t: Template, base: string, driver: string, load: string, flow: string, triggers: string)
    ensures var q, ta := RenderBody(t, base, driver, load, flow, triggers), TriggersAt(t, base, driver, load, flow);
            && ta + |triggers| == |q|
            && q[..|base|] == base
            && q[DriverAt(t, base)..DriverAt(t, base) + |driver|] == driver
            && q[LoadAt(t, base, driver)..LoadAt(t, base, driver) + |load|] == load
            && q[FlowAt(t, base, driver, load)..FlowAt(t, base, driver, load) + |flow|] == flow
            && q[ta..ta + |triggers|] == triggers
  {
    var q1 := base + t.head;
    var q2 := q1 + driver;
    var q3 := q2 + t.afterDriver;
    var q4 := q3 + load;
    var q5 := q4 + t.afterLoad;
    var q6 := q5 + flow;
    var q7 := q6 + t.afterFlow;
    var q8 := q7 + triggers;
    assert RenderBody(t, base, driver, load, flow, triggers) == q8;
    AppendedAt(q1, driver); AppendedAt(q2, t.afterDriver); AppendedAt(q3, load); AppendedAt(q4, t.afterLoad);
    AppendedAt(q5, flow); AppendedAt(q6, t.afterFlow); AppendedAt(q7, triggers);
    AppendedAt(base, t.head);
    assert q6 <= q8;
    assert q4 <= q8;
    assert q2 <= q8;
    assert q1 <= q8;
    PrefixSlice(q1, q8, 0, |base|);
    PrefixSlice(q6, q8, |q5|, |q6|);
    PrefixSlice(q4, q8, |q3|, |q4|);
    PrefixSlice(q2, q8, |q1|, |q2|);
  }

  /** The driver name, the load number and the conversation flow each appear
      verbatim in any rendering, after `base`, which comes first. Since
      `BuildDynamicPrompt` is `Render` of `ContextTemplate` with the config's
      system prompt as `base`, every prompt carries its call context. */
  lemma RenderCarriesContext(t: Template, base: string, driver: string, load: string, flow: string, triggers: string)
    ensures var p := Render(t, base, driver, load, flow, triggers);
            && |base| <= |p| && p[..|base|] == base
            && Text.Contains(p, driver) && Text.Contains(p, load) && Text.Contains(p, flow)
  {
    var q := RenderBody(t, base, driver, load, flow, triggers);
    RenderHoles(t, base, driver, load, flow, triggers);
    ExtendKeeps(q, t.tail, 0, |base|);
    ExtendKeeps(q, t.tail, DriverAt(t, base), |driver|);
    ExtendKeeps(q, t.tail, LoadAt(t, base, driver), |load|);
    ExtendKeeps(q, t.tail, FlowAt(t, base, driver, load), |flow|);
    assert Text.OccursAt(driver, q + t.tail, DriverAt(t, base));
    assert Text.OccursAt(load, q + t.tail, LoadAt(t, base, driver));
    assert Text.OccursAt(flow, q + t.tail, FlowAt(t, base, driver, load));
  }

  /** The elements of a joined list that fills the last hole appear in their
      own order, each followed by ", " except the last. */
  lemma {:induction false} BodyListsTriggers(t: Template, base: string, driver: string, load: string, flow: string,
                                             xs: seq<string>, i: nat)
    requires i < |xs|
    ensures var q := RenderBody(t, base, driver, load, flow, TriggerText(xs));
            var o := TriggersAt(t, base, driver, load, flow) + Text.JoinOffset(xs, ", ", i);
            && o + |xs[i]| <= |q| && q[o..o + |xs[i]|] == xs[i]
            && (i + 1 < |xs| ==> o + |xs[i]| + 2 <= |q| && q[o + |xs[i]|..o + |xs[i]| + 2] == ", ")
  {
    var tt := TriggerText(xs);
    var q := RenderBody(t, base, driver, load, flow, tt);
    RenderHoles(t, base, driver, load, flow, tt);
    Text.JoinAt(xs, ", ", i);
    var s := TriggersAt(t, base, driver, load, flow);
    var o := Text.JoinOffset(xs, ", ", i);
    SubSlice(q, s, tt, o, |xs[i]|);
    if i + 1 < |xs| {
      SubSlice(q, s, tt, o + |xs[i]|, 2);
    }
  }

  /** A slice of a text found at position `s` of `p` is found at the shifted position. */
  lemma SubSlice(p: string, s: nat, tt: string, o: nat, n: nat)
    requires s + |tt| <= |p| && p[s..s + |tt|] == tt && o + n <= |tt|
    ensures s + o + n <= |p| && p[s + o..s + o + n] == tt[o..o + n]
  {
    var u, v := p[s + o..s + o + n], tt[o..o + n];
    forall k | 0 <= k < n ensures u[k] == v[k] {
      assert p[s..s + |tt|][o + k] == tt[o + k];
    }
  }

  /** The same for the full rendering, tail included: the emergency triggers
      appear in every prompt in their own order, each followed by ", " except
      the last. */
  lemma RenderListsTriggers(t: Template, base: string, driver: string, load: string, flow: string,
                            xs: seq<string>, i: nat)
    requires i < |xs|
    ensures var p := Render(t, base, driver, load, flow, TriggerText(xs));
            var o := TriggersAt(t, base, driver, load, flow) + Text.JoinOffset(xs, ", ", i);
            && o + |xs[i]| <= |p| && p[o..o + |xs[i]|] == xs[i]
            && (i + 1 < |xs| ==> o + |xs[i]| + 2 <= |p| && p[o + |xs[i]|..o + |xs[i]| + 2] == ", ")
  {
    var q := RenderBody(t, base, driver, load, flow, TriggerText(xs));
    BodyListsTriggers(t, base, driver, load, flow, xs, i);
    var o := TriggersAt(t, base, driver, load, flow) + Text.JoinOffset(xs, ", ", i);
    ExtendKeeps(q, t.tail, o, |xs[i]|);
    if i + 1 < |xs| {
      ExtendKeeps(q, t.tail, o + |xs[i]|, 2);
    }
  }

  /** A config without triggers leaves the trigger list of the prompt empty. */
  lemma NoTriggersEmptyList(config: AgentConfigRow, ctx: CallContext)
    requires config.emergencyTriggers == []
    ensures BuildDynamicPrompt(config, ctx)
         == Render(ContextTemplate, config.systemPrompt, ctx.driverName, ctx.loadNumber, config.conversationFlow, "")
  {
    assert TriggerText([]) == "";
  }

  // ---------------------------------------------------------------------
  // The create-phone-call payload
  // ---------------------------------------------------------------------

  const FromNumber: string := "+1234567890"
  const DefaultBackendUrl: string := "http://localhost:8000"
  const WebsocketPath: string := "/api/llm-websocket"
  const BeginPrefix: string := "Hi "
  const BeginMiddle: string := ", this is Dispatch with a check call on load "
  const BeginSuffix: string := ". Can you give me an update on your status?"

  /** The opening line the agent speaks. */
  function BeginMessage(ctx: CallContext): string {
    BeginPrefix + ctx.driverName + BeginMiddle + ctx.loadNumber + BeginSuffix
  }

  /** The opening line greets the driver by name right after "Hi ", names the
      load right before the closing question, and has nothing else variable. */
  lemma BeginMessageShape(ctx: CallContext)
    ensures var m := BeginMessage(ctx);
            && |m| == |BeginPrefix| + |ctx.driverName| + |BeginMiddle| + |ctx.loadNumber| + |BeginSuffix|
            && m[..3] == "Hi " && m[3..3 + |ctx.driverName|] == ctx.driverName
            && m[3 + |ctx.driverName|..3 + |ctx.driverName| + |BeginMiddle|] == BeginMiddle
            && m[|m| - |BeginSuffix| - |ctx.loadNumber|..|m| - |BeginSuffix|] == ctx.loadNumber
            && m[|m| - |BeginSuffix|..] == BeginSuffix
  {
  }

  /** The environment the payload reads: `RETELL_AGENT_ID` and `BACKEND_URL`. */
  datatype Env = Env(retellAgentId: Option<string>, backendUrl: Option<string>)

  datatype AgentSettings = AgentSettings(
    llmWebsocketUrl: string,
    beginMessage: string,
    generalPrompt: string,
    generalTools: seq<Value>,
    interruptionSensitivity: real,
    enableBackchannel: bool,
    backchannelFrequency: real,
    backchannelWords: seq<string>,
    reminderTriggerMs: int,
    reminderMaxCount: int,
    ambientSound: string)

  datatype Metadata = Metadata(driverName: string, loadNumber: string, scenarioType: string, configId: string)

  datatype CallPayload = CallPayload(
    fromNumber: string,
    toNumber: string,
    overrideAgentId: Option<string>,
    agentSettings: AgentSettings,
    metadata: Metadata)

  /** The body `create_phone_call` posts for a call to `phone`. */
  function CallPayloadFor(phone: string, config: AgentConfigRow, ctx: CallContext, env: Env): CallPayload
  {
    CallPayload(
      FromNumber,
      phone,
      env.retellAgentId,
      AgentSettings(
        env.backendUrl.GetOr(DefaultBackendUrl) + WebsocketPath,
        BeginMessage(ctx),
        BuildDynamicPrompt(config, ctx),
        [],
        config.interruptionSensitivity,
        config.backchannelEnabled,
        0.8,
        ["uh-huh", "mm-hmm", "I see", "okay"],
        10000,
        2,
        "office"),
      Metadata(ctx.driverName, ctx.loadNumber, config.scenarioType.Name(), config.id))
  }

  /** The payload calls the driver's number from the fixed caller number,
      points Retell at the backend's LLM websocket (`http://localhost:8000`
      when no backend URL is set), carries the dynamic prompt and the opening
      line, passes the config's own voice settings, and copies the driver, the
      load, the scenario type and the config id into the metadata unchanged. */
  lemma CallPayloadFields(phone: string, config: AgentConfigRow, ctx: CallContext, env: Env)
    ensures var p := CallPayloadFor(phone, config, ctx, env);
            && p.toNumber == phone && p.fromNumber == FromNumber
            && p.agentSettings.llmWebsocketUrl == env.backendUrl.GetOr(DefaultBackendUrl) + WebsocketPath
            && p.agentSettings.generalPrompt == BuildDynamicPrompt(config, ctx)
            && p.agentSettings.beginMessage == BeginMessage(ctx)
            && p.agentSettings.interruptionSensitivity == config.interruptionSensitivity
            && p.agentSettings.enableBackchannel == config.backchannelEnabled
            && p.agentSettings.generalTools == []
            && p.metadata == Metadata(ctx.driverName, ctx.loadNumber, config.scenarioType.Name(), config.id)
            && p.overrideAgentId == env.retellAgentId
  {
  }

  /** What Retell answered to the create-phone-call request: the decoded body
      (with the `call_id` it may carry), or an HTTP error with its message. */
  datatype CreateReply = Created(callId: Option<string>) | HttpFailed(message: string)

  /** The arguments of one `create_phone_call`: the number to call, the
      stored config and the call context. */
  datatype PhoneCallRequest = PhoneCallRequest(phoneNumber: string, agentConfig: AgentConfigRow, context: CallContext) {
    /** The body posted to Retell for this request. */
    function Payload(env: Env): CallPayload {
      CallPayloadFor(phoneNumber, agentConfig, context, env)
    }
  }

  /** `create_phone_call`: the decoded answer, or the exception it raises on an HTTP error. */
  function CreatePhoneCall(reply: CreateReply): (r: Result<Option<string>, string>)
    ensures reply.Created? <==> r.Success?
    ensures reply.Created? ==> r.value == reply.callId
    ensures reply.HttpFailed? ==> r.error == "Failed to create call: " + reply.message
  {
    match reply
    case Created(callId) => Success(callId)
    case HttpFailed(message) => Failure("Failed to create call: " + message)
  }

  /** What `get_call_details` hands back when the request succeeds: the fields
      of the Retell call object the call processor reads. A missing transcript
      reads as `Some("")`, the default of `.get`; `"transcript": null` is `None`. */
  datatype CallDetails = CallDetails(transcript: Option<string>, startTimestamp: Timestamp, endTimestamp: Timestamp)
}
