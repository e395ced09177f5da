# ECR image-scan findings notifier — Dafny model

The function runs once for each "image scan completed" event from the container registry. It
takes the scan's findings summary and turns it into a chat-webhook notification, then posts
the notification once. The result is 0 if the post went through and 1 otherwise.

This project models the part of that pipeline that formats the notification, plus the rule
for the result code:

- `Severities` covers the `findingSeverityCounts` dictionary.
  - The class `FindingSeverityCounts` holds the dictionary. Its method `SetDefault` models Python's `dict.setdefault`.
  - `FillSeverityDefaults` is the loop that gives zero to each of CRITICAL, HIGH, MEDIUM, LOW, INFORMAL and UNDEFINED that is missing, updating the dictionary in place.
  - `SetDefaults` is the value-level definition of that loop, as a fold of `setdefault` over the key list.
  - `GetProperties` is the colour/icon cascade: `danger`/`:red_circle:`, then `warning`/`:large_orange_diamond:`, then `good`/`:green_heart:`.
  - `MostSevere` and `TierOf` give an independent definition of the same choice: take the most severe severity that has a finding and use its tier. The helper `FirstReported` finds that severity: it returns the position in the fixed most-severe-first order of the first severity with a non-zero count.
- `SlackMessage` covers the notification itself.
  - It defines the payload datatypes and `MessageFor`, the pure construction of the message: headline, title, console deep link, body and the six severity fields.
  - `GetParams` fills the scan's own dictionary in place, then builds the message from the filled counts.
- `Handler` covers the entry point.
  - `LambdaHandler` starts with result 1, formats the message and posts it.
  - The result becomes 0 only when the post completes. An HTTP error status or a connection failure leaves it at 1.

Things outside the program are inputs to the model:
- The region, channel and webhook URL are parameters.
- The registry's image detail record is a `ScanResult` value. It holds a reference to the mutable counts dictionary.
- The two timestamps are strings that are already formatted.
- The HTTP POST is a function parameter `post`. It maps a destination and a payload to a `Delivery` outcome.

The code tests `count != 0` for CRITICAL and HIGH, and the model does the same, with counts as unbounded integers. A `> 0` rule would differ only on a negative count, which the code does not exclude.

## Model

| member | source | states |
|---|---|---|
| `Severities.SetDefaults` | lambda_function.py:38-39 | After `setdefault(k, 0)` has run for each listed key, the keys are the old keys plus the listed ones. Every existing count is unchanged, and every added key holds 0. |
| `Severities.FilledHasAllSeverities` | lambda_function.py:35-39 | After filling, all six severities CRITICAL, HIGH, MEDIUM, LOW, INFORMAL and UNDEFINED are present, whatever the scan reported. |
| `Severities.SetDefaultsIdempotent` | lambda_function.py:38-39 | Filling a dictionary that is already filled changes nothing. |
| `Severities.FindingSeverityCounts.SetDefault` | lambda_function.py:39 | Inserts the default only when the key is absent and never overwrites an existing count. It returns the value now stored under the key. |
| `Severities.FindingSeverityCounts.FillSeverityDefaults` | lambda_function.py:35-39 | The in-place loop leaves the dictionary equal to `SetDefaults` of its old contents over the six severities in order, so all six are present afterwards. |
| `Severities.GetProperties` | lambda_function.py:21-29 | The tier is always one of danger/:red_circle:, warning/:large_orange_diamond: or good/:green_heart:. |
| `Severities.CriticalOutranksAll` | lambda_function.py:23-24 | A non-zero CRITICAL count gives danger/:red_circle:, whatever the other counts are. |
| `Severities.HighWithoutCriticalWarns` | lambda_function.py:25-26 | CRITICAL zero and HIGH non-zero gives warning/:large_orange_diamond:. |
| `Severities.TierIgnoresLowerSeverities` | lambda_function.py:23-28 | Two count maps that agree on CRITICAL and HIGH get the same tier. The tier is good/:green_heart: exactly when both counts are zero, whatever MEDIUM, LOW, INFORMAL and UNDEFINED hold. |
| `Severities.CascadeIsMostSevereTier` | lambda_function.py:21-29 | The if/elif/else cascade equals the tier of the most severe severity that has a finding. It is a priority rule, not a weighted score. |
| `SlackMessage.ConsoleLink` | lambda_function.py:66-68 | The deep link starts with `https://<region>.console.aws.amazon.com/ecr/repositories/private/<registryId>/` and ends with `/scan-results?region=<region>`. |
| `SlackMessage.ConsoleLinkIdentifiesImage` | lambda_function.py:66-68 | With region, account and repository fixed, different image digests give different deep links. |
| `SlackMessage.SeverityFields` | lambda_function.py:71-78 | Exactly six fields, in the order Critical, High, Medium, Low, Informational, Undefined. The i-th field carries the count of the i-th severity of the fixed list (Informational carries INFORMAL), and every field has `short` set. |
| `SlackMessage.MessageFor` | lambda_function.py:41-81 | Username `Amazon ECR`, icon `:ecr:`, the given channel and the headline. Exactly one attachment. Its fallback text is fixed, its colour and title icon come from the cascade, and its title is `<icon> <repositoryName>:<first tag>`. Its link is the console deep link, its text is the status description followed by the two timestamps, and its six fields hold the filled counts in the fixed order. |
| `SlackMessage.ColorAndIconAgree` | lambda_function.py:62-65 | The attachment's colour and the icon at the head of the title `<icon> <repositoryName>:<first tag>` come from the same tier of the cascade. |
| `SlackMessage.MessageIgnoresOtherKeys` | lambda_function.py:71-78 | Keys of the counts dictionary other than the six severities have no effect on the message. |
| `SlackMessage.FieldsShowFilledCounts` | lambda_function.py:38-78 | Each field of the message built after filling shows the scan's own count for a severity it reported and 0 for one it left out. |
| `SlackMessage.GetParams` | lambda_function.py:31-82 | Fills the scan's dictionary in place, exactly as `SetDefaults` over the six severities, and returns the message built from the filled counts. |
| `Handler.LambdaHandler` | lambda_function.py:99-116 | The result is 0 or 1. It is 0 exactly when the single post of the formatted message completes; an HTTP error or a connection error leaves it at 1. The scan's dictionary ends up filled. |

## Left out

- Fetching the image details from the registry (`get_findings`) is left out because it is a network client. The model takes the record it returns as input, so the `None` result on a registry error, which would then fail inside `get_params`, is not modelled.
- Handler.LambdaHandler: `Delivery` has only the three outcomes the handler catches: completion, `HTTPError` and `URLError`. In the code, any other exception escapes `lambda_handler` with no 0/1 result. Examples are `Request` rejecting a malformed webhook URL, or a timeout or dropped connection during `urlopen` or `read` that is not a `URLError`. Those paths are not modelled.
- The HTTP request, the JSON serialisation of the payload and reading the response are I/O. They appear only as the abstract `Delivery` outcome of `post`.
- Timestamp formatting with `strftime` depends on locale and time zone. The two timestamps are taken as already-formatted strings, and `Body` only places them.
- Environment lookups (`AWS_DEFAULT_REGION`, `CHANNEL`, `WEBHOOK_URL`) and logging are plumbing. The values are parameters and the log lines are not modelled.
- SlackMessage.MessageFor: requires a non-empty tag list and all six severity keys. The code indexes `image-tags[0]` and the dictionary without checking, so it raises an exception otherwise, and the model does not describe that exception path.
- Severities.GetProperties: requires the CRITICAL and HIGH keys, because the code looks them up without a default.
- Python dictionaries also keep insertion order, but the model's `map` does not. The message never depends on that order: the fields are listed explicitly.
