/** The HTTP transport, reduced to what one GET hands back to a transform. */
module Http {
  import opened Json

  /** `Failed` is any `requests.RequestException`: a network error, a timeout,
      a non-2xx status rejected by `raise_for_status`, or a body that
      `resp.json()` cannot decode. `Received` carries the decoded body. */
  datatype HttpOutcome = Failed | Received(body: Json)
}
