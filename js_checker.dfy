/**
 * The Node handler `main` of certificate_checker/src/index.js. It checks three
 * environment variables, fetches the certificate of DOMAIN_NAME through the TLS
 * helper, computes the whole days left and, unless that exceeds DAYS_BUFFER,
 * sends one PublishCommand; a failed send is logged and swallowed.
 *
 * Times are milliseconds; `new Date()` is the parameter `nowMs` and `new Date(s)`
 * on the certificate's `valid_to` text is the parameter `parseDate` (None for an
 * Invalid Date). The TLS helper and the SNS client are capabilities holding their
 * answers and a ghost log of the calls made.
 */
module JsChecker {
  import opened Wrappers
  import opened Numerals
  import opened JsNumbers

  const DOMAIN_NAME := "DOMAIN_NAME"
  const SNS_TOPIC_ARN := "SNS_TOPIC_ARN"
  const DAYS_BUFFER := "DAYS_BUFFER"
  /** The variables in the order `main` checks them. */
  const Variables := [DOMAIN_NAME, SNS_TOPIC_ARN, DAYS_BUFFER]

  /** `1000 * 3600 * 24` */
  const MsPerDay := 1000 * 3600 * 24

  type Env = map<string, string>

  /** `process.env.X` is truthy: set, and not the empty string. */
  predicate Defined(env: Env, key: string) {
    key in env && env[key] != ""
  }

  /** What `tlsCert.get` settles to: the certificate (its `valid_to` text) or a rejection. */
  datatype CertReply = Fetched(validTo: string) | FetchRejected(reason: string)

  datatype PublishCommand = PublishCommand(message: string, subject: string, topicArn: string)

  datatype SendReply = Sent | SendFailed(reason: string)

  /** Why the promise returned by `main` rejects. */
  datatype Rejection = NotDefined(variable: string) | CertificateUnavailable(reason: string)

  datatype Settlement = Fulfilled | Rejected(reason: Rejection)

  /** How `main` settles and which calls it makes. */
  datatype Trace = Trace(settled: Settlement, fetched: seq<string>, sent: seq<PublishCommand>)

  /** The first variable, in checking order, that is not truthy. */
  function FirstUndefined(env: Env): (r: Option<string>)
    ensures r.None? <==> forall i :: 0 <= i < |Variables| ==> Defined(env, Variables[i])
    ensures r.Some? ==>
      exists i :: 0 <= i < |Variables| && r.value == Variables[i] && !Defined(env, Variables[i])
        && forall j :: 0 <= j < i ==> Defined(env, Variables[j])
  {
    if !Defined(env, DOMAIN_NAME) then
      assert Variables[0] == DOMAIN_NAME;
      Some(DOMAIN_NAME)
    else if !Defined(env, SNS_TOPIC_ARN) then
      assert Variables[1] == SNS_TOPIC_ARN;
      Some(SNS_TOPIC_ARN)
    else if !Defined(env, DAYS_BUFFER) then
      assert Variables[2] == DAYS_BUFFER;
      Some(DAYS_BUFFER)
    else
      None
  }

  /** `Math.floor((date - now) / (1000 * 3600 * 24))`; None stands for NaN, which an
      Invalid Date gives. */
  function DaysLeft(expiry: Option<int>, nowMs: int): (days: Option<int>)
    ensures days.Some? <==> expiry.Some?
    ensures days.Some? ==>
      days.value * MsPerDay <= expiry.value - nowMs < (days.value + 1) * MsPerDay
  {
    if expiry.None? then None else Some((expiry.value - nowMs) / MsPerDay)
  }

  function DaysLeftNumber(days: Option<int>): Number {
    if days.None? then NaN else FromInt(days.value)
  }

  /** `${daysLeft}` */
  function DaysLeftText(days: Option<int>): string {
    if days.None? then "NaN" else Decimal(days.value)
  }

  /** `daysLeft > process.env.DAYS_BUFFER`: the string converts to a Number. */
  predicate ReturnsEarly(days: Option<int>, daysBuffer: string) {
    GreaterThan(DaysLeftNumber(days), ToNumber(daysBuffer))
  }

  function Command(domainName: string, topicArn: string, days: Option<int>, validTo: string): PublishCommand {
    PublishCommand(
      domainName + " certificate will expire in " + DaysLeftText(days) + " days on " + validTo + ".",
      domainName + " Certificate Expiring Soon",
      topicArn)
  }

  /**
   * How `main` settles and which calls it makes, given the environment, the time,
   * the Date parser and the TLS helper's answer for each domain. The SNS client's
   * answer is not a parameter: `main` settles the same way whatever it is.
   */
  function Run(env: Env, nowMs: int, parseDate: string -> Option<int>, fetch: string -> CertReply): (t: Trace)
    ensures |t.fetched| <= 1 && |t.sent| <= 1
    ensures t.fetched == [] <==> FirstUndefined(env).Some?
    ensures t.settled.Rejected? ==> t.sent == []
    ensures t.sent != [] ==> t.settled == Fulfilled && t.fetched != []
  {
    match FirstUndefined(env)
    case Some(variable) => Trace(Rejected(NotDefined(variable)), [], [])
    case None =>
      assert Defined(env, Variables[0]) && Defined(env, Variables[1]) && Defined(env, Variables[2]);
      var domainName := env[DOMAIN_NAME];
      match fetch(domainName)
      case FetchRejected(reason) => Trace(Rejected(CertificateUnavailable(reason)), [domainName], [])
      case Fetched(validTo) =>
        var days := DaysLeft(parseDate(validTo), nowMs);
        if ReturnsEarly(days, env[DAYS_BUFFER]) then
          Trace(Fulfilled, [domainName], [])
        else
          Trace(Fulfilled, [domainName], [Command(domainName, env[SNS_TOPIC_ARN], days, validTo)])
  }

  /** The `./tls-helper` module's `get` as a capability. */
  class TlsHelper {
    const reply: string -> CertReply
    ghost var requested: seq<string>

    constructor (reply: string -> CertReply)
      ensures this.reply == reply && requested == []
    {
      this.reply := reply;
      requested := [];
    }

    method Get(domainName: string) returns (r: CertReply)
      modifies this
      ensures r == reply(domainName)
      ensures requested == old(requested) + [domainName]
    {
      r := reply(domainName);
      requested := requested + [domainName];
    }
  }

  /** The module-level `notify` SNSClient as a capability. */
  class SnsClient {
    const reply: PublishCommand -> SendReply
    ghost var sent: seq<PublishCommand>

    constructor (reply: PublishCommand -> SendReply)
      ensures this.reply == reply && sent == []
    {
      this.reply := reply;
      sent := [];
    }

    method Send(command: PublishCommand) returns (r: SendReply)
      modifies this
      ensures r == reply(command)
      ensures sent == old(sent) + [command]
    {
      r := reply(command);
      sent := sent + [command];
    }
  }

  /** `module.exports.main`: settles as `Run` says and makes `Run`'s calls, whatever the
      SNS client answers. */
  method MainHandler(env: Env, nowMs: int, parseDate: string -> Option<int>, tlsCert: TlsHelper, notify: SnsClient)
    returns (settled: Settlement)
    modifies tlsCert, notify
    ensures var t := Run(env, nowMs, parseDate, tlsCert.reply);
      settled == t.settled
      && tlsCert.requested == old(tlsCert.requested) + t.fetched
      && notify.sent == old(notify.sent) + t.sent
  {
    if !Defined(env, DOMAIN_NAME) {
      return Rejected(NotDefined(DOMAIN_NAME));
    }
    if !Defined(env, SNS_TOPIC_ARN) {
      return Rejected(NotDefined(SNS_TOPIC_ARN));
    }
    if !Defined(env, DAYS_BUFFER) {
      return Rejected(NotDefined(DAYS_BUFFER));
    }

    var cert := tlsCert.Get(env[DOMAIN_NAME]);
    if cert.FetchRejected? {
      return Rejected(CertificateUnavailable(cert.reason));
    }
    var date := parseDate(cert.validTo);
    var daysLeft := DaysLeft(date, nowMs);

    if ReturnsEarly(daysLeft, env[DAYS_BUFFER]) {
      return Fulfilled;
    }

    var command := Command(env[DOMAIN_NAME], env[SNS_TOPIC_ARN], daysLeft, cert.validTo);
    var outcome := notify.Send(command);
    // A failed send is caught and only logged.
    return Fulfilled;
  }
}
