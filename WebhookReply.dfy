// What the analysis webhook gives back to a form, and what the three
// stand-alone analysis forms hand to their `onAnalysisGenerated` callback.
module WebhookReply {

  import opened Json

  /** The outcome of posting a request: the response text (whatever the
      HTTP status), or an exception from `fetch` or from reading the body. */
  datatype Reply = Threw | ResponseText(text: string)

  /** The fixed markup a form reports when the request throws. */
  const ErrorHtml := "<div class='text-red-500'>Error generating analysis. Please try again.</div>"

  /** The string a stand-alone form passes to its callback: the response
      text, or the error markup on an exception. When the callback itself
      throws on the response text, the form calls it a second time with the
      error markup; that second call is not modelled. */
  function Delivered(reply: Reply): (r: string)
    ensures reply.ResponseText? ==> r == reply.text
    ensures reply.Threw? ==> r == ErrorHtml
  {
    match reply
    case Threw => ErrorHtml
    case ResponseText(text) => text
  }

  /** What one enabled click of a stand-alone form hands on: the request it
      sent and the one string its callback received. */
  datatype Submission = Submission(sent: Json, delivered: string)
}
