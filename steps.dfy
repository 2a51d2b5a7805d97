/** The values the content script, the AI service and the background worker exchange. */
module Steps {
  import opened Wrappers

  /**
   * A guide step. `selector` is a comma-separated list of candidate CSS
   * selectors; an empty `fallback` stands for a step that has none (both are
   * falsy in the source). `isUrlCheck` marks the synthetic "navigate to
   * GitHub first" step.
   */
  datatype Step = Step(title: string, description: string, selector: string, fallback: string, isUrlCheck: bool)

  /**
   * The background worker's answer to a `GENERATE_GUIDE` request:
   * `{success: true, steps}` or `{success: false, error}`; a field the
   * object does not carry is `None`.
   */
  datatype GuideReply = GuideReply(success: bool, steps: Option<seq<Step>>, error: Option<string>)

  /** A `GENERATE_GUIDE` request from the content script to the background worker. */
  datatype GuideRequest = GuideRequest(taskDescription: string, currentUrl: string)

  /**
   * How the answer to a request reaches the content script's callback:
   * `chrome.runtime.lastError` is set, or a response (possibly none) arrives.
   */
  datatype Delivery = RuntimeError | Delivered(response: Option<GuideReply>)

  /**
   * The steps the content script adopts from a delivery: those of a
   * response with `success` and `steps` both truthy (an array is truthy even
   * when empty); `None` sends the content script down the keyword path.
   */
  function AdoptedSteps(delivery: Delivery): (r: Option<seq<Step>>)
    ensures r.Some? <==> delivery.Delivered? && delivery.response.Some?
                          && delivery.response.value.success && delivery.response.value.steps.Some?
    ensures r.Some? ==> r == delivery.response.value.steps
  {
    match delivery
    case Delivered(Some(reply)) => if reply.success && reply.steps.Some? then reply.steps else None
    case _ => None
  }
}
