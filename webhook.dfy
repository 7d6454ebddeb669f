/**
 * The webhook subscription record of package mhook and the error values its
 * operations return.  The Go struct `Webhook` is declared in a file that is
 * not part of this model; its fields are the ones mhook/service_test.go fills in.
 */
module Webhooks {

  /** The `Config` sub-struct: where events are delivered and how. */
  datatype DeliveryConfig = DeliveryConfig(
    url: string,
    contentType: string,
    secret: string,
    alternativeURLs: seq<string>)

  /** The `Matcher` sub-struct: regular expressions over device identifiers. */
  datatype Matcher = Matcher(deviceID: seq<string>)

  /**
   * One subscription.  `duration` is a Go `time.Duration` (nanoseconds);
   * `until` is a `time.Time`, kept as an opaque instant.
   */
  datatype Webhook = Webhook(
    address: string,
    config: DeliveryConfig,
    failureURL: string,
    events: seq<string>,
    matcher: Matcher,
    duration: int,
    until: int)

  /**
   * Errors of package mhook: an `xhttp.Error` carries an HTTP status code,
   * every other error (from `errors.New` or from a library) only its text.
   */
  datatype Error = StatusError(code: int, text: string) | PlainError(text: string)

  const StatusBadRequest: int := 400

  /** One second and one minute of `time.Duration`, in nanoseconds. */
  const Second: int := 1_000_000_000
  const Minute: int := 60 * Second
}
