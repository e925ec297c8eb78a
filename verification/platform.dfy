/**
 * What a handler receives from, and hands to, the Lambda platform: the
 * deployment configuration, the values read from the Node.js host, and the
 * SNS publish call reduced to its request and its outcome.
 */
module Platform {
  import opened Wrappers

  /** The `ENVIRONMENT` and `SNS_TOPIC_ARN` environment variables, each possibly unset. */
  datatype Config = Config(environment: Option<string>, topicArn: Option<string>)

  /**
   * `process.version`, and the two clock readings the debug revision may
   * take: one for the message text and one for the error body.
   */
  datatype Host = Host(version: string, messageTime: string, errorTime: string)

  /** A thrown JavaScript `Error`, reduced to its `message`. */
  datatype JsError = JsError(message: string)

  /** The parameters of one SNS publish call. */
  datatype PublishRequest = PublishRequest(topicArn: Option<string>, subject: string, message: string)

  /** What the SNS publish call gives back: a message id, or the error it rejects with. */
  datatype PublishResult = Published(messageId: string) | PublishFailed(error: JsError)

  const UnknownEnvironment := "UNKNOWN"

  /** `process.env.ENVIRONMENT || 'UNKNOWN'`. */
  function EnvironmentName(config: Config): (name: string)
    ensures name != ""
    ensures config.environment.Some? && config.environment.value != "" ==> name == config.environment.value
    ensures config.environment.None? || config.environment.value == "" ==> name == UnknownEnvironment
  {
    match config.environment
    case Some(e) => if e != "" then e else UnknownEnvironment
    case None => UnknownEnvironment
  }
}
