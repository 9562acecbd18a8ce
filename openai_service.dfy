/** Structured-data extraction from a call transcript
    (backend/app/services/openai_service.py). The chat-completion request and
    the JSON decoding of its answer are outside the model: what the OpenAI
    call produced is an input, either a decoded JSON object or the message of
    the exception that interrupted it. The model states which extractor a
    scenario type selects and what each extractor returns when the call fails. */
module OpenAIService {
  import opened Models

  /** The three private extractors of the service. */
  datatype Extractor = CheckInExtractor | EmergencyExtractor | GenericExtractor

  /** What the chat call of the chosen extractor produced. */
  datatype LlmReply = Parsed(result: Dict) | Raised(message: string)

  /** The if/elif dispatch of `process_transcript` on the scenario type text. */
  function ChooseExtractor(scenarioType: string): (e: Extractor)
    ensures e == CheckInExtractor <==> scenarioType == "check_in"
    ensures e == EmergencyExtractor <==> scenarioType == "emergency"
    ensures e == GenericExtractor <==> scenarioType !in {"check_in", "emergency"}
  {
    if scenarioType == "check_in" then CheckInExtractor
    else if scenarioType == "emergency" then EmergencyExtractor
    else GenericExtractor
  }

  /** The stored scenario types the model's enum allows never reach the generic extractor. */
  lemma {:induction false} EnumNeverGeneric(t: ScenarioType)
    ensures ChooseExtractor(t.Name()) == if t == CheckIn then CheckInExtractor else EmergencyExtractor
  {
    match t
    case CheckIn =>
    case Emergency =>
  }

  /** The check-in extractor's answer when the chat call fails; the transcript is not used. */
  function DefaultStructure(transcript: string): Dict {
    map[
      "call_outcome" := Str("Processing Failed"),
      "driver_status" := Str("Unknown"),
      "current_location" := Null,
      "eta" := Null,
      "emergency_type" := Null,
      "emergency_location" := Null,
      "escalation_status" := Null,
      "additional_notes" := Str("Failed to process transcript automatically")
    ]
  }

  /** The emergency extractor's answer when the chat call fails; the transcript is not used. */
  function EmergencyDefaultStructure(transcript: string): Dict {
    map[
      "call_outcome" := Str("Emergency Detected"),
      "emergency_type" := Str("Other"),
      "emergency_location" := Str("Unknown"),
      "driver_status" := Str("Unknown"),
      "escalation_status" := Str("Escalation Flagged"),
      "urgency_level" := Str("High"),
      "additional_details" := Str("Failed to process emergency transcript automatically")
    ]
  }

  /** The generic extractor's answer when the chat call fails with `message`. */
  function GenericFailure(message: string): Dict {
    map["call_outcome" := Str("Processing Failed"), "error" := Str(message)]
  }

  /** What extractor `e` returns after its chat call failed. */
  function Fallback(e: Extractor, transcript: string, message: string): Dict {
    match e
    case CheckInExtractor => DefaultStructure(transcript)
    case EmergencyExtractor => EmergencyDefaultStructure(transcript)
    case GenericExtractor => GenericFailure(message)
  }

  /** `process_transcript`: the decoded answer of the chosen extractor, or
      that extractor's fallback when its call failed. */
  function ProcessTranscript(transcript: string, scenarioType: string, reply: LlmReply): (d: Dict)
    ensures reply.Parsed? ==> d == reply.result
    ensures reply.Raised? ==> d == Fallback(ChooseExtractor(scenarioType), transcript, reply.message)
    // every fallback names a call outcome
    ensures reply.Raised? ==> "call_outcome" in d
  {
    match reply
    case Parsed(result) => result
    case Raised(message) => Fallback(ChooseExtractor(scenarioType), transcript, message)
  }

  /** A failed check-in extraction reports "Processing Failed" with an unknown
      driver status and no location, ETA or emergency details. */
  lemma CheckInFailure(transcript: string, message: string)
    ensures var d := ProcessTranscript(transcript, "check_in", Raised(message));
            && d["call_outcome"] == Str("Processing Failed")
            && d["driver_status"] == Str("Unknown")
            && d["current_location"] == Null && d["eta"] == Null
            && d["emergency_type"] == Null && d["emergency_location"] == Null
            && d["escalation_status"] == Null
            && d.Keys == {"call_outcome", "driver_status", "current_location", "eta", "emergency_type",
                          "emergency_location", "escalation_status", "additional_notes"}
  {
  }

  /** A failed emergency extraction still reports an emergency, flagged for
      escalation, of high urgency and type "Other". */
  lemma EmergencyFailure(transcript: string, message: string)
    ensures var d := ProcessTranscript(transcript, "emergency", Raised(message));
            && d["call_outcome"] == Str("Emergency Detected")
            && d["escalation_status"] == Str("Escalation Flagged")
            && d["urgency_level"] == Str("High")
            && d["emergency_type"] == Str("Other")
            && d["emergency_location"] == Str("Unknown")
            && d["driver_status"] == Str("Unknown")
  {
  }

  /** A failed generic extraction reports "Processing Failed" and the error text, and nothing else. */
  lemma GenericFailureReply(transcript: string, scenarioType: string, message: string)
    requires scenarioType != "check_in" && scenarioType != "emergency"
    ensures ProcessTranscript(transcript, scenarioType, Raised(message))
         == map["call_outcome" := Str("Processing Failed"), "error" := Str(message)]
  {
  }

  /** The check-in and emergency fallbacks do not depend on the transcript nor
      on the error, and the generic one depends only on the error. */
  lemma FallbacksIgnoreTranscript(t1: string, t2: string, m1: string, m2: string, scenarioType: string)
    ensures scenarioType in {"check_in", "emergency"} ==>
              ProcessTranscript(t1, scenarioType, Raised(m1)) == ProcessTranscript(t2, scenarioType, Raised(m2))
    ensures ProcessTranscript(t1, scenarioType, Raised(m1)) == ProcessTranscript(t2, scenarioType, Raised(m1))
  {
  }
}
