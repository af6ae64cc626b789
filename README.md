# Certificate expiry checker — a Dafny model

The repository holds one small decision pipeline written twice: a Go AWS Lambda
handler (`certificate_checker_go/main.go`) and an earlier Node version
(`certificate_checker/src/index.js`). Each reads three environment variables,
fetches the expiry of the leaf TLS certificate of a domain, compares it with a
buffer of days and either stops or publishes one SNS message
`"<domain> certificate will expire in <n> days on <date>."` with subject
`"<domain> Certificate Expiring Soon"`.

The model keeps the two handlers' own shape:

- `GoChecker.Handler` and `JsChecker.MainHandler` are methods over capabilities: the
  TLS dial (`GoChecker.TlsDialer`), the AWS config load and SNS publish
  (`GoChecker.Aws`), the TLS helper (`JsChecker.TlsHelper`) and the SNS client
  (`JsChecker.SnsClient`). Each capability holds the answer it gives and a ghost
  log of the calls made. Each handler is proved equal to a pure specification,
  `GoChecker.Run` or `JsChecker.Run`. The specification returns the result
  together with the calls made, and the lemmas in `GoProperties`,
  `JsProperties` and `Versions` are stated over it.
- The environment is a `map<string, string>`. The current time is a parameter:
  nanoseconds for Go, milliseconds for Node.
- The pure parts are functions. These are Go's `strconv.Atoi` (`Strconv`),
  the `time.Duration` arithmetic with its int64 wrap-around and saturation
  (`GoInt`, `GoTime`), and ECMAScript's string-to-number conversion and `>`
  (`JsNumbers`). Decimal printing and reading is in `Numerals`.

Points where the code's behaviour is easy to misread:

- The comment at `main.go:57` says the Go handler stops "when certificate is
  good". The condition at `main.go:58`, `buffer.After(expirationDate)`, stops
  when the certificate expires inside the buffer window. It publishes for a
  certificate that expires after the window, or exactly at its end. The Node
  handler stops when more whole days are left than the buffer.
  `Versions.NotifyDecisionsCompared` compares the two under three conditions.
  Both handlers get the same integer buffer. That buffer is at most 106751 days
  in magnitude, so Go's Duration product does not wrap. Node gets it as its
  plain decimal text. Under these conditions at least one of the two notifies
  for every expiry, and both notify only when the expiry falls in one one-day
  band. Outside them both can stay silent. For a buffer written " 30",
  `Versions.PaddedBufferSilencesBoth` shows this: Go's Atoi refuses the text,
  while Node reads it as 30 and returns early for a certificate 60 days out.
- The Go handler parses `BUFFER_IN_DAYS` only after a successful dial. It
  accepts negative values.
- `tls.Dial` is called with a nil config, so the certificate chain is
  verified. That verification includes the validity period, so in the code as
  written an already expired leaf ends in `("", dial error)` and never gets a
  negative day count. The model lets the network answer any chain, so
  `DaysRemaining` can be negative on its publish path. This over-approximates
  the code.
- The Go connection is never closed, so no release property is claimed.
- A failed send in the Node handler is caught and logged, never rethrown.
  `JsChecker.Run` therefore takes no send answer at all.

## Model

| member | source | states |
|---|---|---|
| `GoChecker.CheckEnv` | certificate_checker_go/main.go:20-34 | Succeeds iff DOMAIN_NAME, SNS_TOPIC_ARN and BUFFER_IN_DAYS are all non-empty (unset reads as ""), and then carries their values. Otherwise the error names the first empty one in that order. |
| `GoProperties.FirstEmptyVariableFails` | certificate_checker_go/main.go:20-34 | The first empty variable in checking order gives `("", NotDefined(it))`. Nothing is dialled, loaded or published. |
| `GoProperties.EmptyEnvironmentFails` | certificate_checker_go/main_test.go:242-248 | With no variables set, or with all three set to "" as `resetEnv` leaves them, the handler fails on DOMAIN_NAME and makes no call. |
| `GoProperties.DialsOnceToPort443` | certificate_checker_go/main.go:36-39 | With all three variables set, exactly one dial is made, to `domain + ":443"`. |
| `GoChecker.Address` | certificate_checker_go/main.go:36-39 | The dialled address `domain + ":443"`. `GoProperties.DialsOnceToPort443` fixes its role: it is the one address dialled. |
| `GoProperties.DialFailureIsResult` | certificate_checker_go/main.go:40-43 | A dial failure gives `("", that error)` after the one dial. No config load, no publish. |
| `GoProperties.BufferParsedAfterDial` | certificate_checker_go/main.go:36-51 | A BUFFER_IN_DAYS that Atoi rejects is only reported once the dial has happened. The result is the dial error if the dial failed, else `("", AtoiError)`. Nothing is loaded or published. |
| `Strconv.Atoi` | certificate_checker_go/main.go:47 | Succeeds iff the text is one optional sign followed by decimal digits only, with a value inside int64. The result is that value. A well-formed number out of range is a range error. |
| `Strconv.AtoiOfDecimal` | certificate_checker_go/main.go:47 | Atoi reads back the decimal text of every int64. |
| `Strconv.AtoiAcceptsSign` | certificate_checker_go/main.go:47 | "+30" and "-30" parse to 30 and -30. |
| `Strconv.AtoiRejectsSurroundingText` | certificate_checker_go/main.go:47-51 | "", "-", " 30", "30d" and "abc" are syntax errors. |
| `GoInt.Wrap64` | certificate_checker_go/main.go:54 | Two's complement wrap: the result is in int64, congruent to the exact value modulo 2^64, and equal to it when it fits. |
| `GoInt.Saturate64` | certificate_checker_go/main.go:55 | The result is in int64. It equals the exact value when that fits, else the bound on the value's side. |
| `GoTime.MulDuration` | certificate_checker_go/main.go:54 | Duration product: always in int64, and exact when the true product fits. |
| `GoTime.Sub` | certificate_checker_go/main.go:55 | `Time.Sub` is in int64, exact when the difference fits, and non-negative iff the first instant is not before the second. |
| `GoTime.WholeDays` | certificate_checker_go/main.go:55 | `int(d.Hours() / 24)` truncates toward zero: `n*Day <= d < (n+1)*Day` for `d >= 0`, and `(n-1)*Day < d <= n*Day` for `d < 0`. |
| `GoChecker.DaysRemaining` | certificate_checker_go/main.go:55 | `int(expiration.Sub(now).Hours() / 24)`. Its sign is fixed by `GoProperties.DaysRemainingSign` and its value by `GoTime.WholeDays`, with examples in `GoProperties.DaysRemainingExamples`. |
| `GoProperties.DaysRemainingSign` | certificate_checker_go/main.go:55 | Days remaining are negative iff the certificate expired a whole day or more ago. They are zero iff expiry is within one day either side of now. |
| `GoProperties.DaysRemainingExamples` | certificate_checker_go/main.go:55 | 10.5 days ahead gives 10. 1.5 days ago gives -1. |
| `GoProperties.ReturnsEarlyBoundary` | certificate_checker_go/main.go:53-60 | When the buffer does not wrap, the threshold is `now + bufferDays` days. The early return happens iff the expiry is strictly before it. An expiry equal to the threshold takes the publish path. |
| `GoChecker.Threshold` | certificate_checker_go/main.go:54 | `now.Add(24h * bufferDays)`. By `GoProperties.ReturnsEarlyBoundary` it is `now + bufferDays` days when the product does not wrap. By `GoProperties.ThresholdWrapsAround`, at MaxBufferDays + 1 days the product wraps and the threshold is `now + 106752 days - 2^64 ns`, about 292 years before now. |
| `GoChecker.ReturnsEarly` | certificate_checker_go/main.go:58 | `buffer.After(expirationDate)`. `GoProperties.ReturnsEarlyBoundary` shows it holds iff the expiry is strictly before the threshold. |
| `GoProperties.ReturnsEarlyInsideWindow` | certificate_checker_go/main.go:57-60 | As written, the early return fires for a certificate expiring inside the window, and not for one expiring after it. |
| `GoProperties.ThresholdWrapsAround` | certificate_checker_go/main.go:54-58 | At MaxBufferDays + 1 days the Duration product wraps. The threshold then falls about 292 years before now, and the handler never returns early for any expiry less than 200 years in the past. |
| `GoProperties.EmptySuccessExactlyWhenThresholdAfter` | certificate_checker_go/main.go:58-60 | `("", nil)` is returned iff the variables are set, the dial succeeds, the buffer parses and the threshold is strictly after the leaf's NotAfter. Then nothing is loaded or published. |
| `GoProperties.EarlyReturnPath` | certificate_checker_go/main.go:53-60 | Past the checks, when the threshold is after the leaf's NotAfter, the result is `("", nil)` after the one dial to `domain:443`. Nothing is loaded or published. |
| `GoProperties.ConfigLoadFailureIsResult` | certificate_checker_go/main.go:62-66 | On the publish path, a failed config load gives `("", ConfigError)` with one load and no publish. |
| `GoProperties.PublishPath` | certificate_checker_go/main.go:68-93 | On the publish path there is one load and one publish. Its input has message `"<domain> certificate will expire in <days> days on <RFC822 date>."`, subject `"<domain> Certificate Expiring Soon"` and topic SNS_TOPIC_ARN. The result is `("MessageID: " + id, nil)` or `("", PublishError)`. |
| `GoProperties.MessageCarriesFacts` | certificate_checker_go/main.go:70-75 | The message body starts with the domain and ends with the rendered date and ".". Its day count reads back with Atoi. |
| `GoChecker.ExpiryMessage` | certificate_checker_go/main.go:70-75 | The SNS message. `GoProperties.MessageCarriesFacts` shows it carries the domain, the day count and the date, and `GoProperties.PublishPath` shows it is the one published. |
| `GoChecker.ExpirySubject` | certificate_checker_go/main.go:76-79 | The subject `"<domain> Certificate Expiring Soon"`, the one published by `GoProperties.PublishPath`. |
| `Numerals.DigitsValue` | certificate_checker_go/main.go:71-73 | The `%d` digits of a number read back as that number. |
| `GoChecker.MessageIdText` | certificate_checker_go/main.go:92 | The success text is never empty and starts with "MessageID: ", followed by the id (nothing for a nil id). |
| `GoChecker.Run` | certificate_checker_go/main.go:19-94 | At most one dial, one config load and one publish. No dial iff a variable is missing. A publish implies the load. Every error carries an empty message. A non-empty message with nil error happens iff the one publish succeeded, and it is `"MessageID: " + id`. |
| `GoChecker.TlsDialer.Dial` | certificate_checker_go/main.go:36-39 | Returns the network's answer for the address and appends the address to the dial log. |
| `GoChecker.Aws.LoadDefaultConfig` | certificate_checker_go/main.go:62 | Returns the configured load failure and counts one load. |
| `GoChecker.Aws.Publish` | certificate_checker_go/main.go:86 | Returns SNS's answer for the input and appends the input to the publish log. |
| `GoChecker.Handler` | certificate_checker_go/main.go:19-94 | Returns `Run`'s `(message, error)`. It makes exactly `Run`'s dials, loads and publishes on the capabilities. |
| `JsChecker.FirstUndefined` | certificate_checker/src/index.js:7-17 | None iff DOMAIN_NAME, SNS_TOPIC_ARN and DAYS_BUFFER are all set and non-empty. Otherwise it is the first one, in that order, that is not. |
| `JsProperties.FirstUndefinedVariableRejects` | certificate_checker/src/index.js:7-17 | The first unset or empty variable is thrown, before any certificate fetch or send. |
| `JsProperties.FetchRejectionRejects` | certificate_checker/src/index.js:17 | A rejected certificate fetch rejects `main` and nothing is sent. |
| `JsChecker.DaysLeft` | certificate_checker/src/index.js:18-20 | Whole days left round toward negative infinity: `d*86400000 <= expiry - now < (d+1)*86400000`. They are NaN iff the date is invalid. |
| `JsProperties.DaysLeftExamples` | certificate_checker/src/index.js:20 | 10.5 days ahead gives 10. 1.5 days ago gives -2, where the Go version gives -1. |
| `JsProperties.ReturnsEarlyAgainstInteger` | certificate_checker/src/index.js:23 | Against an integer DAYS_BUFFER, the early return happens iff the days left strictly exceed it. Equality publishes. |
| `JsChecker.ReturnsEarly` | certificate_checker/src/index.js:23 | `daysLeft > process.env.DAYS_BUFFER`. `JsProperties.ReturnsEarlyAgainstInteger` shows it is `daysLeft > buffer` for an integer buffer. `JsProperties.NaNNeverReturnsEarly` shows it is false when either side is NaN. |
| `JsNumbers.GreaterThan` | certificate_checker/src/index.js:23 | The relational `>` on Numbers, false when either side is NaN. `JsProperties.NaNNeverReturnsEarly` and `JsProperties.ReturnsEarlyAgainstInteger` fix its meaning on the handler's operands. |
| `JsNumbers.ToNumber` | certificate_checker/src/index.js:23 | The conversion of DAYS_BUFFER for `>`. `JsNumbers.ToNumberOfDecimal` shows it reads every integer's decimal text back, and the examples below cover white space, exponent, hex, Infinity and text outside the grammar. |
| `JsProperties.NaNNeverReturnsEarly` | certificate_checker/src/index.js:23 | A DAYS_BUFFER that converts to NaN, or an invalid date, makes the comparison false, so the send happens. |
| `JsProperties.WordBufferNeverReturnsEarly` | certificate_checker/src/index.js:13-23 | DAYS_BUFFER "abc" passes the presence check and never stops the send. |
| `JsNumbers.ToNumberOfDecimal` | certificate_checker/src/index.js:23 | Every integer's decimal text converts to that integer. |
| `JsNumbers.ToNumberOfWord` | certificate_checker/src/index.js:23 | "abc" converts to NaN. |
| `JsNumbers.ToNumberOfTrailingText` | certificate_checker/src/index.js:23 | "30 days" converts to NaN. |
| `JsNumbers.ToNumberTrims` | certificate_checker/src/index.js:23 | " 30\n" converts to 30. |
| `JsNumbers.ToNumberOfPadded` | certificate_checker/src/index.js:23 | " 30" converts to 30. |
| `JsNumbers.ToNumberOfExponent` | certificate_checker/src/index.js:23 | "3e1" converts to 30. |
| `JsNumbers.ToNumberOfHex` | certificate_checker/src/index.js:23 | "0x1E" converts to 30. |
| `JsNumbers.ToNumberInfinity` | certificate_checker/src/index.js:23 | "-Infinity" converts to negative infinity. |
| `JsProperties.EarlyReturnPath` | certificate_checker/src/index.js:22-28 | Past the checks, when more days are left than the buffer, `main` fulfils after one fetch without sending. |
| `JsProperties.FulfilsSilentlyExactlyWhenReturningEarly` | certificate_checker/src/index.js:7-28 | `main` fulfils without sending iff the variables are set, the fetch succeeds and the comparison holds. |
| `JsProperties.PublishPath` | certificate_checker/src/index.js:30-36 | Otherwise exactly one PublishCommand is sent. Its message is `"<domain> certificate will expire in <daysLeft> days on <valid_to>."`, its subject `"<domain> Certificate Expiring Soon"` and its topic SNS_TOPIC_ARN. |
| `JsChecker.Command` | certificate_checker/src/index.js:31-35 | The PublishCommand built from the domain, the topic, the days left and `valid_to`. `JsProperties.PublishPath` shows it is the one sent. |
| `JsChecker.DaysLeftText` | certificate_checker/src/index.js:32 | `${daysLeft}`: "NaN" for an invalid date, otherwise the decimal text of the whole days left. `Versions.JsNotifiesForExpiringCertificate` shows it in a message. |
| `JsProperties.CommandCarriesFacts` | certificate_checker/src/index.js:31-35 | The sent message starts with the domain and ends with `valid_to` and ".". Its day text is "NaN" for an Invalid Date, and otherwise converts back with StringToNumber to the whole days left. Its subject is `"<domain> Certificate Expiring Soon"` and its topic is SNS_TOPIC_ARN. |
| `JsChecker.Run` | certificate_checker/src/index.js:6-40 | At most one fetch and one send. No fetch iff a variable is missing. A rejection never comes with a send. Whenever a command was sent, `main` fulfils. |
| `JsChecker.TlsHelper.Get` | certificate_checker/src/index.js:17 | Returns the helper's answer for the domain and appends the domain to the fetch log. |
| `JsChecker.SnsClient.Send` | certificate_checker/src/index.js:36 | Returns SNS's answer for the command and appends the command to the send log. |
| `JsChecker.MainHandler` | certificate_checker/src/index.js:6-40 | Settles as `Run` says, whatever the SNS client answers, so a failed send is swallowed. It makes exactly `Run`'s fetches and sends. |
| `Versions.GoNotifiesFrom` | certificate_checker_go/main.go:53-60 | Without wrap-around, the Go handler notifies iff the expiry is at or after `now + buffer` days. |
| `Versions.DaysLeftExceeds` | certificate_checker/src/index.js:20-23 | Days left exceed the buffer iff expiry is at least `buffer + 1` whole days away. |
| `Versions.JsNotifiesBefore` | certificate_checker/src/index.js:20-28 | The Node handler notifies iff the expiry is before `now + buffer + 1` days. |
| `Versions.NotifyDecisionsCompared` | certificate_checker_go/main.go:57-60 | The two versions are compared with index.js:23 on the same instants and one integer buffer. The buffer is at most 106751 days in magnitude, and Node gets its plain decimal text. At least one version notifies. Both notify iff the expiry lies in `[now + buffer, now + buffer + 1)` days. |
| `Versions.GoRefusesPaddedBuffer` | certificate_checker_go/main.go:47-51 | A buffer written " 30" is refused by Atoi after the one dial. The result is that syntax error and nothing is published. |
| `Versions.NodeReadsPaddedBuffer` | certificate_checker/src/index.js:23-28 | DAYS_BUFFER " 30" reads as 30. With 60 days left `main` fulfils without sending. |
| `Versions.PaddedBufferSilencesBoth` | certificate_checker_go/main.go:47-51 | Compared with index.js:23, a buffer written " 30" and a certificate 60 days from expiry leave both handlers silent. This is outside the conditions of `Versions.NotifyDecisionsCompared`. |
| `Versions.GoNotifiesForHealthyCertificate` | certificate_checker_go/main.go:57-86 | A 30-day buffer and a certificate 60 days from expiry: the Go handler loads the config and publishes a "60 days" message. |
| `Versions.GoSilentForExpiringCertificate` | certificate_checker_go/main.go:57-60 | The same buffer and a certificate 5 days from expiry: the Go handler returns `("", nil)` after one dial, with no load or publish. |
| `Versions.JsSilentForHealthyCertificate` | certificate_checker/src/index.js:22-28 | DAYS_BUFFER 30 and 60 days left: the Node handler fulfils without sending. |
| `Versions.JsNotifiesForExpiringCertificate` | certificate_checker/src/index.js:30-36 | DAYS_BUFFER 30 and 5 days left: one command is sent whose message reads "... will expire in 5 days on ...". |

## Left out

- TLS: the dial, the handshake, chain verification and x509 parsing are one abstract answer per address. The answer is either a chain of NotAfter instants or an error. The `./tls-helper` module of the Node version is likewise one answer per domain. It is not part of this model.
- `PeerCertificates[0]` (main.go:45): an empty chain after a successful dial would make Go panic. `GoChecker.Run` and `GoChecker.Handler` instead require a non-empty chain (`LeafPresented`).
- AWS SDK: `config.LoadDefaultConfig`, `sns.NewFromConfig`, `client.Publish` and `SNSClient.send` are capabilities that return a fixed answer. Credentials, retries and the network are not modelled.
- Runtime wiring: `lambda.Start`/`main` and the module export are not modelled. `os.Getenv` and `process.env` are a map. `time.Now()` and `new Date()` are parameters.
- Date formatting and parsing: `Time.Format(time.RFC822)` is the parameter `formatRFC822`, and `new Date(cert.valid_to)` is the parameter `parseDate`. Time zones and the Date value range are not modelled.
- GoTime.WholeDays: `Duration.Hours()` is a float64, and its rounding, and the division by 24 that follows, can move a value lying within at most about a microsecond of a whole day onto that day. The model divides exactly.
- JsNumbers.ToNumber: finite values are exact reals, not rounded to binary64. A text such as "29.99999999999999999999", which JavaScript rounds to 30, compares below 30 here.
- JsChecker.DaysLeft: milliseconds are unbounded integers. The 2^53 precision limit of Numbers is not modelled. `${daysLeft}` is rendered in plain decimal, which JavaScript only does below 1e21.
- Error texts: errors are modelled by kind and the variable or cause they carry. The message strings are not modelled. These are Go's "DOMAIN_NAME is not defined", strconv's quoted NumError text and Node's "DOMAIN_NAME not defined.".
- Logging (`log.Println`, `console.log`, `console.error`) has no effect on behaviour and is left out.
- The helpers that main_test.go calls (`getEnv`, `getConn`, `getCertInfo`, `constructPubInput`, `pub`, `lambdaStart`) do not exist in main.go. Its live-server "dial" test (main_test.go:249-280) needs the network and goroutines. Neither is modelled.
