/** The invocation entry point: format the notification, post it once, and
    report 0 when the post went through, 1 otherwise. */
module Handler {
  import opened Severities
  import opened SlackMessage

  /** What the single webhook POST can end in: completion, an HTTP error
      status, or a connection-level failure. */
  datatype Delivery = Delivered | HttpError(code: int, reason: string) | UrlError(reason: string)

  /** lambda_handler, with the registry lookup already done (`scan`), the
      environment passed in (`region`, `channel`, `webhookUrl`) and the POST
      given as `post`, which maps a destination and a payload to its outcome. */
  method LambdaHandler(scan: ScanResult, region: string, channel: string, webhookUrl: string,
                       post: (string, Message) -> Delivery) returns (response: int)
    requires |scan.imageTags| > 0
    modifies scan.findingSeverityCounts
    ensures scan.findingSeverityCounts.counts == SetDefaults(old(scan.findingSeverityCounts.counts), SeverityList)
    ensures response == 0 || response == 1
    ensures response == 0 <==> post(webhookUrl, MessageFor(scan, scan.findingSeverityCounts.counts, region, channel)).Delivered?
  {
    response := 1;
    var message := GetParams(scan, region, channel);
    var outcome := post(webhookUrl, message);
    match outcome {
      case HttpError(_, _) =>
      case UrlError(_) =>
      case Delivered => response := 0;
    }
  }
}
