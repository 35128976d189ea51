/** What the client services get back from the network, and the one request
    shape they send. The transport itself is outside the model: each awaited
    call is replaced by the outcome it settled with. */
module Http {
  import opened Wrappers
  import opened Json

  /** The `{service, payload}` body POSTed to proxy.php. */
  datatype Envelope = Envelope(service: string, payload: Json)

  /** What `response.json()` settles with. */
  datatype BodyParse = Parsed(value: Json) | Unparsable(error: string)

  /** What a `fetch` call settles with: a rejection (a TypeError carrying
      `error`) or a response whose `ok` flag and body the caller inspects. */
  datatype FetchOutcome =
    | FetchRejected(error: string)
    | FetchResponse(ok: bool, body: BodyParse)

  /** What an axios call settles with: a response (axios resolves for 2xx
      statuses) with its body and `Location` header, an AxiosError with its
      `message` and the body of the error response if there was one, or a
      thrown value that is not an AxiosError, with its own `message` when it
      is an `Error` instance. */
  datatype AxiosOutcome =
    | Resolved(status: int, data: Json, location: Option<string>)
    | AxiosFailed(message: string, responseData: Option<Json>)
    | OtherFailure(error: Option<string>)

  /** `error.response?.data?.message || fallback` for an AxiosError, when the
      message is a string (see `StringOr` for any other truthy value). */
  function ErrorMessageOr(responseData: Option<Json>, fallback: string): string
  {
    StringOr(GetOpt(responseData, "message"), fallback)
  }
}
