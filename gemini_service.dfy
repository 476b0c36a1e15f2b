/** The classification client: the empty-input guard, the response schema it
    asks for, and the assembly of a result from the parsed reply. The remote
    model call and `JSON.parse` are one oracle outcome (`Call`); the fresh
    identifier and the clock reading are parameters. */
module GeminiService {
  import opened Types
  import opened JsString

  /** The message of the error thrown for empty or white-space input. */
  const EmptyInputMessage: string := "Input text cannot be empty"

  /** The fields of the parsed JSON reply that the assembly reads. */
  datatype Reply = Reply(
    category: string,
    confidence: real,
    explanation: string,
    flaggedKeywords: seq<string>)

  /** What the awaited remote call and the parse of its text come to: a parsed
      reply, or a thrown error whose `message` property may be absent. */
  datatype Call = Answered(reply: Reply) | Threw(message: Option<string>)

  /** How the returned promise settles. */
  datatype Outcome = Resolved(result: AnalysisResult) | Rejected(message: Option<string>)

  /** The labels the response schema allows for `category`. */
  function SchemaCategories(): (labels: seq<string>)
    ensures |labels| == 3
    ensures forall c :: Value(c) in labels <==> c != Uncertain
    ensures forall i :: 0 <= i < |labels| ==> Parse(labels[i]).Some?
  {
    ["Hate Speech", "Offensive Language", "Safe / Neutral"]
  }

  /** The properties the response schema describes, in its order; `Reply`
      has one field for each. */
  function SchemaProperties(): (names: seq<string>)
    ensures |names| == 4
    ensures forall i, j :: 0 <= i < j < |names| ==> names[i] != names[j]
  {
    ["category", "confidence", "explanation", "flaggedKeywords"]
  }

  /** The fields the response schema marks as required: every property it
      describes, and nothing else. */
  function RequiredFields(): (fields: seq<string>)
    ensures |fields| == |SchemaProperties()|
    ensures forall f :: f in fields <==> f in SchemaProperties()
  {
    ["category", "confidence", "explanation", "flaggedKeywords"]
  }

  /** `analyzeText(text)`, given what the remote call does (`call`), the
      identifier `crypto.randomUUID()` yields (`id`) and the reading of
      `Date.now()` (`now`). */
  function AnalyzeText(text: string, call: Call, id: string, now: int): (r: Outcome)
    // blank input is rejected with the fixed message whatever the service would
    // have done
    ensures IsBlank(text) ==> r == Rejected(Some(EmptyInputMessage))
    // otherwise the call decides: an answer resolves, a thrown error rejects
    // with that error's message
    ensures !IsBlank(text) ==> (r.Resolved? <==> call.Answered?)
    ensures !IsBlank(text) && call.Threw? ==> r == Rejected(call.message)
    // the result keeps the input verbatim, copies the reply's fields unchanged
    // and takes the identifier and time from the environment
    ensures r.Resolved? ==>
      && call.Answered?
      && r.result.text == text
      && r.result.id == id
      && r.result.timestamp == now
      && r.result.category == call.reply.category
      && r.result.confidence == call.reply.confidence
      && r.result.explanation == call.reply.explanation
      && r.result.flaggedKeywords == call.reply.flaggedKeywords
  {
    if Trim(text) == "" then
      Rejected(Some(EmptyInputMessage))
    else
      match call
      case Threw(message) => Rejected(message)
      case Answered(reply) =>
        Resolved(AnalysisResult(
          id := id,
          text := text,
          category := reply.category,
          confidence := reply.confidence,
          explanation := reply.explanation,
          timestamp := now,
          flaggedKeywords := reply.flaggedKeywords))
  }

  /** A reply whose category the schema allows yields a result in one of the
      three published categories, never `Uncertain`. */
  lemma {:induction false} SchemaReplyIsPublished(text: string, reply: Reply, id: string, now: int)
    requires reply.category in SchemaCategories()
    requires !IsBlank(text)
    ensures AnalyzeText(text, Answered(reply), id, now).Resolved?
    ensures var c := Parse(AnalyzeText(text, Answered(reply), id, now).result.category);
            c.Some? && c.value != Uncertain
  {
  }
}
