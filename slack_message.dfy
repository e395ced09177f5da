/** The chat-webhook notification built from an image scan result. */
module SlackMessage {
  import opened Severities

  /** One severity entry of the attachment; `short` lays two entries out per row. */
  datatype Field = Field(title: string, value: int, short: bool)

  datatype Attachment = Attachment(
    fallback: string,
    color: string,
    title: string,
    titleLink: string,
    text: string,
    fields: seq<Field>)

  /** The webhook payload: `username`, `channels`, `icon_emoji`, `text`, `attachments`. */
  datatype Message = Message(
    username: string,
    channels: string,
    iconEmoji: string,
    text: string,
    attachments: seq<Attachment>)

  /** The image detail record of a completed scan. The two timestamps arrive
      already formatted; the severity counts are a dictionary the formatter
      updates in place, shared with whoever holds the record. */
  datatype ScanResult = ScanResult(
    registryId: string,
    repositoryName: string,
    imageDigest: string,
    imageTags: seq<string>,
    scanStatusDescription: string,
    imageScanCompletedAt: string,
    vulnerabilitySourceUpdatedAt: string,
    findingSeverityCounts: FindingSeverityCounts)

  /** Field titles, position by position with `SeverityList`. */
  const FieldTitles: seq<string> := ["Critical", "High", "Medium", "Low", "Informational", "Undefined"]

  const ConsoleHost := ".console.aws.amazon.com/ecr/repositories/private/"
  const ScanResultsPath := "/scan-results?region="

  function Headline(region: string, registryId: string): string {
    "*ECR Image Scan findings | " + region + " | Account:" + registryId + "*"
  }

  function Title(icon: string, repositoryName: string, tag: string): string {
    icon + " " + repositoryName + ":" + tag
  }

  /** Deep link to the console page of the image's scan results. */
  function ConsoleLink(region: string, registryId: string, repositoryName: string, imageDigest: string): (url: string)
    ensures "https://" + region + ConsoleHost + registryId + "/" <= url
    ensures |url| >= |ScanResultsPath + region| && url[|url| - |ScanResultsPath + region|..] == ScanResultsPath + region
  {
    "https://" + region + ConsoleHost + registryId + "/" + repositoryName
      + "/_/image/" + imageDigest + ScanResultsPath + region
  }

  function Body(description: string, completedAt: string, sourceUpdatedAt: string): string {
    description + "\nImage Scan Completed at " + completedAt
      + "\nVulnerability Source Updated at " + sourceUpdatedAt
  }

  /** The six severity fields in fixed order. */
  function SeverityFields(counts: map<string, int>): (fields: seq<Field>)
    requires HasAllSeverities(counts)
    ensures |fields| == |SeverityList| == |FieldTitles|
    ensures forall i :: 0 <= i < |fields| ==> fields[i] == Field(FieldTitles[i], counts[SeverityList[i]], true)
  {
    [ Field("Critical", counts["CRITICAL"], true),
      Field("High", counts["HIGH"], true),
      Field("Medium", counts["MEDIUM"], true),
      Field("Low", counts["LOW"], true),
      Field("Informational", counts["INFORMAL"], true),
      Field("Undefined", counts["UNDEFINED"], true) ]
  }

  /** The notification for a scan whose counts have been filled. */
  function MessageFor(scan: ScanResult, counts: map<string, int>, region: string, channel: string): (m: Message)
    requires HasAllSeverities(counts)
    requires |scan.imageTags| > 0
    ensures m.username == "Amazon ECR" && m.iconEmoji == ":ecr:" && m.channels == channel
    ensures m.text == Headline(region, scan.registryId)
    ensures |m.attachments| == 1
    ensures m.attachments[0].fallback == "AmazonECR Image Scan Findings Description."
    ensures m.attachments[0].color == GetProperties(counts).color
    ensures m.attachments[0].title == Title(GetProperties(counts).icon, scan.repositoryName, scan.imageTags[0])
    ensures m.attachments[0].titleLink == ConsoleLink(region, scan.registryId, scan.repositoryName, scan.imageDigest)
    ensures m.attachments[0].text
      == Body(scan.scanStatusDescription, scan.imageScanCompletedAt, scan.vulnerabilitySourceUpdatedAt)
    ensures |m.attachments[0].fields| == 6
    ensures forall i :: 0 <= i < 6 ==>
      m.attachments[0].fields[i] == Field(FieldTitles[i], counts[SeverityList[i]], true)
  {
    var properties := GetProperties(counts);
    Message(
      "Amazon ECR",
      channel,
      ":ecr:",
      Headline(region, scan.registryId),
      [ Attachment(
          "AmazonECR Image Scan Findings Description.",
          properties.color,
          Title(properties.icon, scan.repositoryName, scan.imageTags[0]),
          ConsoleLink(region, scan.registryId, scan.repositoryName, scan.imageDigest),
          Body(scan.scanStatusDescription, scan.imageScanCompletedAt, scan.vulnerabilitySourceUpdatedAt),
          SeverityFields(counts)) ])
  }

  /** Colour and title icon come from one tier: red for any CRITICAL finding,
      orange for HIGH without CRITICAL, green otherwise. */
  lemma ColorAndIconAgree(scan: ScanResult, counts: map<string, int>, region: string, channel: string)
    requires HasAllSeverities(counts)
    requires |scan.imageTags| > 0
    ensures var a := MessageFor(scan, counts, region, channel).attachments[0];
      var tier := if counts["CRITICAL"] != 0 then Danger else if counts["HIGH"] != 0 then Warning else Good;
      && a.color == tier.color
      && a.title == Title(tier.icon, scan.repositoryName, scan.imageTags[0])
  {
  }

  /** Only the six severity entries reach the message: extra keys in the
      dictionary are ignored. */
  lemma MessageIgnoresOtherKeys(scan: ScanResult, a: map<string, int>, b: map<string, int>, region: string, channel: string)
    requires HasAllSeverities(a) && HasAllSeverities(b)
    requires forall s :: s in SeverityList ==> a[s] == b[s]
    requires |scan.imageTags| > 0
    ensures MessageFor(scan, a, region, channel) == MessageFor(scan, b, region, channel)
  {
  }

  /** A severity the scan did not report is shown with count 0; a reported
      one with its own count. */
  lemma FieldsShowFilledCounts(scan: ScanResult, counts: map<string, int>, region: string, channel: string, i: nat)
    requires |scan.imageTags| > 0
    requires i < 6
    ensures var m := MessageFor(scan, SetDefaults(counts, SeverityList), region, channel);
      m.attachments[0].fields[i].value == (if SeverityList[i] in counts then counts[SeverityList[i]] else 0)
  {
  }

  /** The deep link identifies the image: two digests give the same link only
      when they are the same digest. */
  lemma {:induction false} ConsoleLinkIdentifiesImage(region: string, registryId: string, repositoryName: string, d1: string, d2: string)
    requires ConsoleLink(region, registryId, repositoryName, d1) == ConsoleLink(region, registryId, repositoryName, d2)
    ensures d1 == d2
  {
    var front := "https://" + region + ConsoleHost + registryId + "/" + repositoryName + "/_/image/";
    var back := ScanResultsPath + region;
    var u1 := ConsoleLink(region, registryId, repositoryName, d1);
    var u2 := ConsoleLink(region, registryId, repositoryName, d2);
    assert u1 == front + d1 + back;
    assert u2 == front + d2 + back;
    assert |d1| == |d2|;
    assert d1 == u1[|front|..|front| + |d1|];
    assert d2 == u2[|front|..|front| + |d2|];
  }

  /** get_params: fills the scan's severity dictionary in place, then builds
      the notification from the filled counts. */
  method GetParams(scan: ScanResult, region: string, channel: string) returns (message: Message)
    requires |scan.imageTags| > 0
    modifies scan.findingSeverityCounts
    ensures scan.findingSeverityCounts.counts == SetDefaults(old(scan.findingSeverityCounts.counts), SeverityList)
    ensures HasAllSeverities(scan.findingSeverityCounts.counts)
    ensures message == MessageFor(scan, scan.findingSeverityCounts.counts, region, channel)
  {
    var findingCounts := scan.findingSeverityCounts;
    findingCounts.FillSeverityDefaults();
    message := MessageFor(scan, findingCounts.counts, region, channel);
  }
}
