/**
 * The mock chat endpoint, `POST /api/chat`: it classifies the user's message by
 * keywords into a severity and answers with a fixed text for that severity.
 */
module ChatRoute {
  import opened Common
  import opened Text

  datatype Severity = Low | Medium | Critical

  const CriticalKeywords: seq<string> := ["chest pain", "can't breathe", "stroke", "severe bleeding"]
  const MediumKeywords: seq<string> := ["cut", "burn", "sprain"]

  const LowAnswer := "This is a simulated response for a low-severity query."
  const MediumAnswer := "This is a simulated response for a medium-severity query like a cut or sprain. Here are some first-aid steps you can take."
  const CriticalAnswer := "Based on your description, this could be a critical emergency. It is important to seek professional medical help immediately. While you wait for help to arrive, I will provide some initial guidance."
  const FailureText := "Failed to generate simulated response."

  /** Some keyword of `keywords` occurs in `text` (the reference meaning). */
  ghost predicate MentionsAny(text: string, keywords: seq<string>) {
    exists k :: k in keywords && Occurs(text, k)
  }

  /** The `includes(..) || includes(..) || ...` chain. */
  function ContainsAny(text: string, keywords: seq<string>): (b: bool)
    ensures b <==> MentionsAny(text, keywords)
  {
    if keywords == [] then false
    else
      ContainsIff(text, keywords[0]);
      assert forall k :: k in keywords <==> k == keywords[0] || k in keywords[1..];
      Contains(text, keywords[0]) || ContainsAny(text, keywords[1..])
  }

  /** The severity of a message: critical keywords are checked first, then medium ones, on the lower-cased text. */
  function Classify(message: string): (sev: Severity)
    ensures sev == Critical <==> MentionsAny(ToLower(message), CriticalKeywords)
    ensures sev == Medium <==>
      !MentionsAny(ToLower(message), CriticalKeywords) && MentionsAny(ToLower(message), MediumKeywords)
    ensures sev == Low <==>
      !MentionsAny(ToLower(message), CriticalKeywords) && !MentionsAny(ToLower(message), MediumKeywords)
  {
    var lower := ToLower(message);
    if ContainsAny(lower, CriticalKeywords) then Critical
    else if ContainsAny(lower, MediumKeywords) then Medium
    else Low
  }

  /** The fixed answer paired with each severity. */
  function AnswerFor(sev: Severity): (a: string)
    ensures a != ""
  {
    match sev
    case Low => LowAnswer
    case Medium => MediumAnswer
    case Critical => CriticalAnswer
  }

  /** Each severity has its own answer, so the answer alone tells the severity. */
  lemma AnswersDistinct(a: Severity, b: Severity)
    ensures AnswerFor(a) == AnswerFor(b) <==> a == b
  {
    if a != b {
      assert |LowAnswer| != |MediumAnswer| && |LowAnswer| != |CriticalAnswer| && |MediumAnswer| != |CriticalAnswer|;
    }
  }

  /** Upper- or lower-casing the message never changes its severity. */
  lemma ClassifyIgnoresCase(message: string)
    ensures Classify(ToUpper(message)) == Classify(message)
    ensures Classify(ToLower(message)) == Classify(message)
  {
    ToLowerOfToUpper(message);
    ToLowerIdempotent(message);
  }

  /** A message with both a critical and a medium keyword is critical. */
  lemma CriticalWins(message: string, critical: string, medium: string)
    requires critical in CriticalKeywords && medium in MediumKeywords
    requires Occurs(ToLower(message), critical) && Occurs(ToLower(message), medium)
    ensures Classify(message) == Critical
  {
  }

  /** The request as the handler reads it: an unparsable body, or the `message` field. */
  datatype ChatRequest = Unparsable | Body(message: Value)

  datatype ChatBody = Reply(answer: string, severity: Severity) | Failure(error: string)

  /**
   * `POST /api/chat`. Only a string `message` can be lower-cased; any other value
   * (or a body that is not JSON) throws inside the `try` and yields the fixed 500.
   */
  function Post(req: ChatRequest): (r: Response<ChatBody>)
    ensures r.Json?
    ensures r.status == 200 <==> req.Body? && req.message.Str?
    ensures r.status != 200 ==> r.status == 500 && r.body == Failure(FailureText)
    ensures r.status == 200 ==>
      r.body.Reply? && r.body.severity == Classify(req.message.s) && r.body.answer == AnswerFor(r.body.severity)
  {
    match req
    case Body(Str(message)) =>
      var sev := Classify(message);
      Json(200, Reply(AnswerFor(sev), sev))
    case _ => Json(500, Failure(FailureText))
  }
}
