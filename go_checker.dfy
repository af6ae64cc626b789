/**
 * The Go Lambda handler of certificate_checker_go/main.go. The handler reads
 * three environment variables, dials `<domain>:443` over TLS, reads the leaf
 * certificate's NotAfter, and either returns early or publishes one SNS message.
 *
 * The environment is a map, the current time a parameter; the TLS dial and the
 * AWS SDK are capabilities (classes holding the answer they give and a ghost log
 * of the calls made), and `Run` is the specification of `Handler`: what it
 * returns and which calls it makes.
 */
module GoChecker {
  import opened Wrappers
  import opened Numerals
  import opened GoInt
  import opened GoTime
  import opened Strconv

  const DOMAIN_NAME := "DOMAIN_NAME"
  const SNS_TOPIC_ARN := "SNS_TOPIC_ARN"
  const BUFFER_IN_DAYS := "BUFFER_IN_DAYS"
  /** The variables in the order the handler checks them. */
  const Variables := [DOMAIN_NAME, SNS_TOPIC_ARN, BUFFER_IN_DAYS]

  /** The largest buffer, in days, whose Duration `Day * bufferDays` does not wrap. */
  const MaxBufferDays := MaxInt64 / Day

  type Env = map<string, string>

  /** `os.Getenv`: an unset variable reads as "". */
  function Getenv(env: Env, key: string): string {
    if key in env then env[key] else ""
  }

  datatype Settings = Settings(domainName: string, snsTopicArn: string, bufferInDays: string)

  datatype Certificate = Certificate(notAfter: Time)

  /** What `tls.Dial` gives: a connection with the peer's certificate chain, or an error
      (DNS, refused connection, failed handshake or chain verification). */
  datatype DialReply = Connected(peerCertificates: seq<Certificate>) | DialFailed(cause: string)

  datatype PublishInput = PublishInput(message: string, subject: string, topicArn: string)

  /** What `client.Publish` gives: the output's MessageId (None when it is nil), or an error. */
  datatype PublishReply = Published(messageId: Option<string>) | PublishFailed(cause: string)

  datatype Error =
    | NotDefined(variable: string)
    | DialError(cause: string)
    | AtoiError(input: string, kind: NumErrorKind)
    | ConfigError(cause: string)
    | PublishError(cause: string)

  /** The handler's `(string, error)` result with the calls it made on the way. */
  datatype Trace = Trace(
    message: string,
    err: Option<Error>,
    dialed: seq<string>,
    configLoads: nat,
    published: seq<PublishInput>)

  /** The three variables, checked in order; the first empty one is the error. */
  function CheckEnv(env: Env): (r: Result<Settings, Error>)
    ensures r.Ok? <==> forall i :: 0 <= i < |Variables| ==> Getenv(env, Variables[i]) != ""
    ensures r.Ok? ==>
      r.value == Settings(Getenv(env, DOMAIN_NAME), Getenv(env, SNS_TOPIC_ARN), Getenv(env, BUFFER_IN_DAYS))
    ensures r.Err? ==>
      exists i :: 0 <= i < |Variables| && r.error == NotDefined(Variables[i]) && Getenv(env, Variables[i]) == ""
        && forall j :: 0 <= j < i ==> Getenv(env, Variables[j]) != ""
  {
    var domainName := Getenv(env, DOMAIN_NAME);
    var snsTopicArn := Getenv(env, SNS_TOPIC_ARN);
    var bufferInDays := Getenv(env, BUFFER_IN_DAYS);
    if domainName == "" then
      assert Variables[0] == DOMAIN_NAME;
      Err(NotDefined(DOMAIN_NAME))
    else if snsTopicArn == "" then
      assert Variables[1] == SNS_TOPIC_ARN;
      Err(NotDefined(SNS_TOPIC_ARN))
    else if bufferInDays == "" then
      assert Variables[2] == BUFFER_IN_DAYS;
      Err(NotDefined(BUFFER_IN_DAYS))
    else
      Ok(Settings(domainName, snsTopicArn, bufferInDays))
  }

  /** `fmt.Sprintf("%s:443", domainName)` */
  function Address(domainName: string): string {
    domainName + ":443"
  }

  /** `now.Add((time.Hour * 24) * time.Duration(bufferDays))` */
  function Threshold(now: Time, bufferDays: int): Time {
    Add(now, MulDuration(Day, bufferDays))
  }

  /** `int(expirationDate.Sub(now).Hours() / 24)` */
  function DaysRemaining(expiration: Time, now: Time): int {
    WholeDays(Sub(expiration, now))
  }

  /** `buffer.After(expirationDate)`: the condition under which the handler returns ("", nil). */
  predicate ReturnsEarly(now: Time, bufferDays: int, expiration: Time) {
    After(Threshold(now, bufferDays), expiration)
  }

  const MessageLead := " certificate will expire in "

  function ExpiryMessage(domainName: string, days: int, date: string): string {
    domainName + MessageLead + Decimal(days) + " days on " + date + "."
  }

  function ExpirySubject(domainName: string): string {
    domainName + " Certificate Expiring Soon"
  }

  const MessageIdPrefix := "MessageID: "

  /** `fmt.Sprintf("MessageID: %s", aws.ToString(output.MessageId))`; a nil id prints as "". */
  function MessageIdText(id: Option<string>): (s: string)
    ensures s != ""
    ensures |s| >= |MessageIdPrefix| && s[..|MessageIdPrefix|] == MessageIdPrefix
    ensures id.Some? ==> s[|MessageIdPrefix|..] == id.value
    ensures id.None? ==> s == MessageIdPrefix
  {
    MessageIdPrefix + (if id.Some? then id.value else "")
  }

  /** `PeerCertificates[0]` needs a non-empty chain whenever the handler gets as far as
      dialling and the dial succeeds. */
  predicate LeafPresented(env: Env, dial: string -> DialReply) {
    var reply := dial(Address(Getenv(env, DOMAIN_NAME)));
    CheckEnv(env).Ok? ==> (reply.Connected? ==> reply.peerCertificates != [])
  }

  /**
   * What the handler returns and which calls it makes, given the environment, the
   * time read by `time.Now()`, the RFC 822 rendering of an instant, the answer of the
   * network to each dialled address, the failure (if any) of `config.LoadDefaultConfig`
   * and the answer of SNS to each publish input.
   */
  function Run(
    env: Env, now: Time, formatRFC822: Time -> string,
    dial: string -> DialReply, configFailure: Option<string>, publish: PublishInput -> PublishReply
  ): (t: Trace)
    requires LeafPresented(env, dial)
    ensures |t.dialed| <= 1 && t.configLoads <= 1 && |t.published| <= 1
    ensures t.dialed == [] <==> CheckEnv(env).Err?
    ensures t.configLoads == 1 ==> t.dialed != []
    ensures t.published != [] ==> t.configLoads == 1
    ensures t.err.Some? ==> t.message == ""
    ensures t.err.None? && t.message != "" <==> t.published != [] && publish(t.published[0]).Published?
    ensures t.err.None? && t.message != "" ==> t.message == MessageIdText(publish(t.published[0]).messageId)
  {
    match CheckEnv(env)
    case Err(e) => Trace("", Some(e), [], 0, [])
    case Ok(settings) =>
      var addr := Address(settings.domainName);
      match dial(addr)
      case DialFailed(cause) => Trace("", Some(DialError(cause)), [addr], 0, [])
      case Connected(peers) =>
        var expiration := peers[0].notAfter;
        match Atoi(settings.bufferInDays)
        case Err(kind) => Trace("", Some(AtoiError(settings.bufferInDays, kind)), [addr], 0, [])
        case Ok(bufferDays) =>
          if ReturnsEarly(now, bufferDays, expiration) then
            Trace("", None, [addr], 0, [])
          else if configFailure.Some? then
            Trace("", Some(ConfigError(configFailure.value)), [addr], 1, [])
          else
            var input := PublishInput(
              ExpiryMessage(settings.domainName, DaysRemaining(expiration, now), formatRFC822(expiration)),
              ExpirySubject(settings.domainName),
              settings.snsTopicArn);
            match publish(input)
            case PublishFailed(cause) => Trace("", Some(PublishError(cause)), [addr], 1, [input])
            case Published(id) => Trace(MessageIdText(id), None, [addr], 1, [input])
  }

  /** `tls.Dial("tcp", addr, nil)` as a capability: its answer per address and the addresses dialled. */
  class TlsDialer {
    const reply: string -> DialReply
    ghost var dialed: seq<string>

    constructor (reply: string -> DialReply)
      ensures this.reply == reply && dialed == []
    {
      this.reply := reply;
      dialed := [];
    }

    method Dial(addr: string) returns (r: DialReply)
      modifies this
      ensures r == reply(addr)
      ensures dialed == old(dialed) + [addr]
    {
      r := reply(addr);
      dialed := dialed + [addr];
    }
  }

  /** `config.LoadDefaultConfig` and the SNS client built from it, as one capability. */
  class Aws {
    const configFailure: Option<string>
    const reply: PublishInput -> PublishReply
    ghost var configLoads: nat
    ghost var published: seq<PublishInput>

    constructor (configFailure: Option<string>, reply: PublishInput -> PublishReply)
      ensures this.configFailure == configFailure && this.reply == reply
      ensures configLoads == 0 && published == []
    {
      this.configFailure := configFailure;
      this.reply := reply;
      configLoads := 0;
      published := [];
    }

    method LoadDefaultConfig() returns (failure: Option<string>)
      modifies this
      ensures failure == configFailure
      ensures configLoads == old(configLoads) + 1 && published == old(published)
    {
      failure := configFailure;
      configLoads := configLoads + 1;
    }

    method Publish(input: PublishInput) returns (r: PublishReply)
      modifies this
      ensures r == reply(input)
      ensures published == old(published) + [input] && configLoads == old(configLoads)
    {
      r := reply(input);
      published := published + [input];
    }
  }

  /** `handler()`: its result is `Run`'s, and the calls it makes on the capabilities are `Run`'s. */
  method Handler(env: Env, now: Time, formatRFC822: Time -> string, dialer: TlsDialer, aws: Aws)
    returns (message: string, err: Option<Error>)
    requires LeafPresented(env, dialer.reply)
    modifies dialer, aws
    ensures var t := Run(env, now, formatRFC822, dialer.reply, aws.configFailure, aws.reply);
      message == t.message && err == t.err
      && dialer.dialed == old(dialer.dialed) + t.dialed
      && aws.configLoads == old(aws.configLoads) + t.configLoads
      && aws.published == old(aws.published) + t.published
  {
    var domainName := Getenv(env, DOMAIN_NAME);
    if domainName == "" {
      return "", Some(NotDefined(DOMAIN_NAME));
    }
    var snsTopicArn := Getenv(env, SNS_TOPIC_ARN);
    if snsTopicArn == "" {
      return "", Some(NotDefined(SNS_TOPIC_ARN));
    }
    var bufferInDays := Getenv(env, BUFFER_IN_DAYS);
    if bufferInDays == "" {
      return "", Some(NotDefined(BUFFER_IN_DAYS));
    }

    var conn := dialer.Dial(Address(domainName));
    if conn.DialFailed? {
      return "", Some(DialError(conn.cause));
    }

    var expirationDate := conn.peerCertificates[0].notAfter;

    var parsed := Atoi(bufferInDays);
    if parsed.Err? {
      return "", Some(AtoiError(bufferInDays, parsed.error));
    }
    var bufferDays := parsed.value;

    var buffer := Threshold(now, bufferDays);
    var certDiffInDays := DaysRemaining(expirationDate, now);

    if After(buffer, expirationDate) {
      return "", None;
    }

    var cfgFailure := aws.LoadDefaultConfig();
    if cfgFailure.Some? {
      return "", Some(ConfigError(cfgFailure.value));
    }

    var msg := ExpiryMessage(domainName, certDiffInDays, formatRFC822(expirationDate));
    var sub := ExpirySubject(domainName);
    var input := PublishInput(msg, sub, snsTopicArn);

    var output := aws.Publish(input);
    if output.PublishFailed? {
      return "", Some(PublishError(output.cause));
    }

    return MessageIdText(output.messageId), None;
  }
}
