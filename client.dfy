/**
 * How a call through the OpenAI client can fail, as the services tell the
 * cases apart: the request timed out, the API reported an error, or
 * something else went wrong. `detail` is the exception's text.
 */
module Client {

  datatype ClientError = ApiTimeout(detail: string) | ApiFailure(detail: string) | Unexpected(detail: string)
}
