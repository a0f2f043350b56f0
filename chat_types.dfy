/**
 * The data model shared by the chat endpoint, the browser store, the
 * transcript listing and the chat client: segments, messages, sessions and
 * the closed taxonomy of therapeutic strategies (src/types/chat.ts).
 */
module ChatTypes {
  import opened Wrappers

  /** A span of therapist text with the techniques it uses. The labels are
      plain strings; that they come from the taxonomy is the separate
      predicate WellFormedSegment, not something the type guarantees. */
  datatype Segment = Segment(text: string, strategies: seq<string>)

  /** The author of a message: the string union "user" | "therapist". */
  datatype Role = User | Therapist

  /** One turn. `segments` is optional and belongs to therapist turns only. */
  datatype Message = Message(role: Role, content: string, timestamp: string, segments: Option<seq<Segment>>)

  datatype Session = Session(sessionId: string, startedAt: string, messages: seq<Message>)

  /** The body the chat endpoint answers with on success. */
  datatype ChatResponse = ChatResponse(content: string, segments: seq<Segment>)

  /** The structured reply the completion service is asked to produce. */
  datatype TherapistResponse = TherapistResponse(segments: seq<Segment>)

  /** The segments field appears on therapist messages only. */
  predicate WellFormedMessage(m: Message) {
    m.role == User ==> m.segments.None?
  }

  // ---------------------------------------------------------------------
  // The strategy taxonomy
  // ---------------------------------------------------------------------

  datatype Strategy =
    | ActiveListening
    | Validation
    | CognitiveReframing
    | Empathy
    | OpenEndedQuestions
    | Reflection
    | Normalization
    | Psychoeducation
    | Grounding
    | Summarization

  function Label(s: Strategy): string {
    match s
    case ActiveListening => "active_listening"
    case Validation => "validation"
    case CognitiveReframing => "cognitive_reframing"
    case Empathy => "empathy"
    case OpenEndedQuestions => "open_ended_questions"
    case Reflection => "reflection"
    case Normalization => "normalization"
    case Psychoeducation => "psychoeducation"
    case Grounding => "grounding"
    case Summarization => "summarization"
  }

  /** The labels, in the order the source lists them. */
  const THERAPEUTIC_STRATEGIES: seq<string> := [
    "active_listening",
    "validation",
    "cognitive_reframing",
    "empathy",
    "open_ended_questions",
    "reflection",
    "normalization",
    "psychoeducation",
    "grounding",
    "summarization"
  ]

  /** The strategy a label names, if it names one. */
  function ParseStrategy(name: string): (r: Option<Strategy>)
    ensures r.Some? ==> Label(r.value) == name
    ensures r.Some? <==> name in THERAPEUTIC_STRATEGIES
  {
    if name == "active_listening" then Some(ActiveListening)
    else if name == "validation" then Some(Validation)
    else if name == "cognitive_reframing" then Some(CognitiveReframing)
    else if name == "empathy" then Some(Empathy)
    else if name == "open_ended_questions" then Some(OpenEndedQuestions)
    else if name == "reflection" then Some(Reflection)
    else if name == "normalization" then Some(Normalization)
    else if name == "psychoeducation" then Some(Psychoeducation)
    else if name == "grounding" then Some(Grounding)
    else if name == "summarization" then Some(Summarization)
    else None
  }

  /** The taxonomy has exactly ten labels, pairwise distinct. */
  lemma TaxonomyHasTenDistinctLabels()
    ensures |THERAPEUTIC_STRATEGIES| == 10
    ensures forall i, j :: 0 <= i < j < |THERAPEUTIC_STRATEGIES| ==>
      THERAPEUTIC_STRATEGIES[i] != THERAPEUTIC_STRATEGIES[j]
  {
    forall i, j | 0 <= i < j < |THERAPEUTIC_STRATEGIES|
      ensures THERAPEUTIC_STRATEGIES[i] != THERAPEUTIC_STRATEGIES[j]
    {
      var si := ParseStrategy(THERAPEUTIC_STRATEGIES[i]).value;
      var sj := ParseStrategy(THERAPEUTIC_STRATEGIES[j]).value;
      assert si != sj;
    }
  }

  /** Every strategy has a label in the taxonomy, and parsing it gives the strategy back. */
  lemma LabelRoundTrip(s: Strategy)
    ensures Label(s) in THERAPEUTIC_STRATEGIES
    ensures ParseStrategy(Label(s)) == Some(s)
  {
  }

  /** Labels tell strategies apart. */
  lemma LabelInjective(s: Strategy, t: Strategy)
    ensures Label(s) == Label(t) <==> s == t
  {
    LabelRoundTrip(s);
    LabelRoundTrip(t);
  }

  /** Every label of a segment is one of the taxonomy's. */
  predicate WellFormedSegment(seg: Segment) {
    forall i :: 0 <= i < |seg.strategies| ==> seg.strategies[i] in THERAPEUTIC_STRATEGIES
  }

  /** The strategies of a well-formed segment, as values of the taxonomy. */
  function SegmentStrategies(seg: Segment): (r: seq<Strategy>)
    requires WellFormedSegment(seg)
    ensures |r| == |seg.strategies|
    ensures forall i :: 0 <= i < |r| ==> Label(r[i]) == seg.strategies[i]
  {
    seq(|seg.strategies|, i requires 0 <= i < |seg.strategies| => ParseStrategy(seg.strategies[i]).value)
  }
}
