/**
 * The two calls to the hosted language model (gemini.ts), reduced to what the
 * client sees of them: the outcome of the remote call is a parameter, and the
 * functions here say what reply or report the wrapper turns each outcome into.
 */
module Services {
  import opened Types

  /** Returned when the model answers with no text (gemini.ts:25). */
  const NoAnswerText: string := "מצטערת, לא הצלחתי למצוא תשובה מדויקת."
  /** Returned when the request fails (gemini.ts:28). */
  const ApologyText: string := "מצטערת, נתקלתי בקושי קטן. תוכלי לשאול שוב?"

  /**
   * What the conversation request produced: an answer with or without text, an
   * error inside the `try` (gemini.ts:15-29), or an error in the client set-up
   * or the context serialisation ahead of it (gemini.ts:8-13), which the
   * wrapper does not catch.
   */
  datatype ChatOutcome = Answered(text: Option<string>) | ChatFailed | ChatRejected

  /** The reply `getGeminiResponse` resolves to; `None` when it rejects. */
  function ChatReply(o: ChatOutcome): (r: Option<string>)
    ensures r.None? <==> o.ChatRejected?
    ensures r.Some? ==> r.value != ""
    ensures o.Answered? && o.text.Some? && o.text.value != "" ==> r == o.text
    ensures o.ChatFailed? ==> r == Some(ApologyText)
    ensures o.Answered? && (o.text.None? || o.text.value == "") ==> r == Some(NoAnswerText)
  {
    match o
    case Answered(Some(t)) => if t != "" then Some(t) else Some(NoAnswerText)
    case Answered(None) => Some(NoAnswerText)
    case ChatFailed => Some(ApologyText)
    case ChatRejected => None
  }

  /**
   * What the analysis request produced: no text, text that does not parse,
   * parsed JSON that is not an array, an array of cards together with the
   * search citations the answer was grounded on, an error inside the outer
   * `try` (gemini.ts:54-129), or an error in the client set-up or the profile
   * serialisation ahead of it (gemini.ts:34-52), which the wrapper does not catch.
   */
  datatype AnalysisOutcome =
    | NoText
    | Unparseable
    | NotAnArray
    | Cards(items: seq<RightCard>, searchLinks: seq<Source>)
    | AnalysisFailed
    | AnalysisRejected

  /** Each parsed card with the search citations appended to its own sources. */
  function WithSearchLinks(items: seq<RightCard>, links: seq<Source>): (r: Report)
    ensures |r| == |items|
    ensures forall i | 0 <= i < |items| ::
      r[i].sources == Some(items[i].sources.GetOr([]) + links) &&
      r[i].(sources := items[i].sources) == items[i]
  {
    if items == [] then []
    else [items[0].(sources := Some(items[0].sources.GetOr([]) + links))] + WithSearchLinks(items[1..], links)
  }

  /**
   * The report `analyzeRights` resolves to: every caught failure becomes the
   * empty report; `None` when it rejects.
   */
  function AnalysisReport(o: AnalysisOutcome): (r: Option<Report>)
    ensures r.None? <==> o.AnalysisRejected?
    ensures !o.Cards? && !o.AnalysisRejected? ==> r == Some([])
    ensures o.Cards? ==> r == Some(WithSearchLinks(o.items, o.searchLinks))
    ensures o.Cards? ==> r.Some? && |r.value| == |o.items|
    ensures o.Cards? ==> forall i | 0 <= i < |o.items| ::
      r.value[i].id == o.items[i].id && r.value[i].authority == o.items[i].authority
  {
    match o
    case Cards(items, links) => Some(WithSearchLinks(items, links))
    case AnalysisRejected => None
    case _ => Some([])
  }
}
