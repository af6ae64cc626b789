/**
 * The Go handler and the Node handler side by side. Go returns early when its
 * threshold `now.Add(24h * buffer)` is after the expiry; that threshold is
 * `now + buffer` days only while the Duration product does not wrap, that is for
 * a buffer of at most 106751 days in magnitude. Node returns early when more whole
 * days are left than the buffer. Given the same integer buffer in that range, with
 * Node reading it as its plain decimal text, at least one of them notifies for every
 * expiry and both notify only in a one-day band (`NotifyDecisionsCompared`). Outside
 * those conditions both can stay silent (`PaddedBufferSilencesBoth`).
 */
module Versions {
  import opened Wrappers
  import opened Numerals
  import opened GoInt
  import GoTime
  import Strconv
  import GoChecker
  import GoProperties
  import JsChecker
  import JsProperties
  import JsNumbers

  const NsPerMs := 1_000_000

  lemma GoNotifiesFrom(nowMs: int, expiryMs: int, buffer: int)
    requires -GoChecker.MaxBufferDays <= buffer <= GoChecker.MaxBufferDays
    ensures !GoChecker.ReturnsEarly(nowMs * NsPerMs, buffer, expiryMs * NsPerMs)
      <==> nowMs + buffer * JsChecker.MsPerDay <= expiryMs
  {
    GoProperties.ReturnsEarlyBoundary(nowMs * NsPerMs, buffer, expiryMs * NsPerMs);
    var gap := expiryMs - nowMs - buffer * JsChecker.MsPerDay;
    assert expiryMs * NsPerMs - (nowMs * NsPerMs + buffer * GoTime.Day) == gap * NsPerMs;
  }

  lemma FloorExceeds(days: int, gap: int, buffer: int)
    requires days * JsChecker.MsPerDay <= gap < (days + 1) * JsChecker.MsPerDay
    ensures days > buffer <==> gap >= (buffer + 1) * JsChecker.MsPerDay
  {
    if days > buffer {
      assert days * JsChecker.MsPerDay >= (buffer + 1) * JsChecker.MsPerDay;
    } else {
      assert (days + 1) * JsChecker.MsPerDay <= (buffer + 1) * JsChecker.MsPerDay;
    }
  }

  lemma DaysLeftExceeds(nowMs: int, expiryMs: int, buffer: int)
    ensures JsChecker.DaysLeft(Some(expiryMs), nowMs).value > buffer
      <==> expiryMs - nowMs >= (buffer + 1) * JsChecker.MsPerDay
  {
    FloorExceeds(JsChecker.DaysLeft(Some(expiryMs), nowMs).value, expiryMs - nowMs, buffer);
  }

  lemma JsNotifiesBefore(nowMs: int, expiryMs: int, buffer: int)
    ensures !JsChecker.ReturnsEarly(JsChecker.DaysLeft(Some(expiryMs), nowMs), Decimal(buffer))
      <==> expiryMs < nowMs + (buffer + 1) * JsChecker.MsPerDay
  {
    JsProperties.ReturnsEarlyAgainstInteger(JsChecker.DaysLeft(Some(expiryMs), nowMs), buffer);
    DaysLeftExceeds(nowMs, expiryMs, buffer);
  }

  /** Both take instants in milliseconds (Go's in nanoseconds, scaled) and the same
      integer buffer: at least one notifies, and both notify only when the expiry lies
      in the one-day band that starts at `now + buffer` days. */
  lemma NotifyDecisionsCompared(nowMs: int, expiryMs: int, buffer: int)
    requires -GoChecker.MaxBufferDays <= buffer <= GoChecker.MaxBufferDays
    ensures var goNotifies := !GoChecker.ReturnsEarly(nowMs * NsPerMs, buffer, expiryMs * NsPerMs);
      var jsNotifies := !JsChecker.ReturnsEarly(JsChecker.DaysLeft(Some(expiryMs), nowMs), Decimal(buffer));
      (goNotifies || jsNotifies)
      && (goNotifies && jsNotifies
          <==> nowMs + buffer * JsChecker.MsPerDay <= expiryMs < nowMs + (buffer + 1) * JsChecker.MsPerDay)
  {
    GoNotifiesFrom(nowMs, expiryMs, buffer);
    JsNotifiesBefore(nowMs, expiryMs, buffer);
  }

  const Domain := "example.com"
  const Topic := "topic-1"

  function GoEnv(): GoChecker.Env {
    map[GoChecker.DOMAIN_NAME := Domain, GoChecker.SNS_TOPIC_ARN := Topic, GoChecker.BUFFER_IN_DAYS := "30"]
  }

  function JsEnv(): JsChecker.Env {
    map[JsChecker.DOMAIN_NAME := Domain, JsChecker.SNS_TOPIC_ARN := Topic, JsChecker.DAYS_BUFFER := "30"]
  }

  lemma ThirtyDays()
    ensures Decimal(30) == "30"
    ensures Strconv.Atoi("30") == Ok(30)
  {
    assert Digits(30) == Digits(3) + [DigitChar(0)];
    Strconv.AtoiOfDecimal(30);
  }

  lemma GoSettings()
    ensures GoChecker.CheckEnv(GoEnv()) == Ok(GoChecker.Settings(Domain, Topic, "30"))
  {
    var env := GoEnv();
    assert GoChecker.Getenv(env, GoChecker.DOMAIN_NAME) == Domain;
    assert GoChecker.Getenv(env, GoChecker.SNS_TOPIC_ARN) == Topic;
    assert GoChecker.Getenv(env, GoChecker.BUFFER_IN_DAYS) == "30";
  }

  lemma WholeDaysRemaining(now: GoTime.Time, k: nat)
    requires k <= 100
    ensures GoChecker.DaysRemaining(now + k * GoTime.Day, now) == k
  {
    assert GoTime.Sub(now + k * GoTime.Day, now) == k * GoTime.Day;
  }

  lemma WholeDaysLeft(nowMs: int, k: int)
    ensures JsChecker.DaysLeft(Some(nowMs + k * JsChecker.MsPerDay), nowMs) == Some(k)
  {
    var d := JsChecker.DaysLeft(Some(nowMs + k * JsChecker.MsPerDay), nowMs).value;
    FloorExceeds(d, k * JsChecker.MsPerDay, k);
    FloorExceeds(d, k * JsChecker.MsPerDay, k - 1);
  }

  /** A 30-day buffer and a certificate 60 days from expiry: the Go handler, as written,
      loads the AWS config and publishes. */
  lemma GoNotifiesForHealthyCertificate(
    now: GoTime.Time, formatRFC822: GoTime.Time -> string,
    dial: string -> GoChecker.DialReply, publish: GoChecker.PublishInput -> GoChecker.PublishReply)
    requires dial(Domain + ":443") == GoChecker.Connected([GoChecker.Certificate(now + 60 * GoTime.Day)])
    ensures var t := GoChecker.Run(GoEnv(), now, formatRFC822, dial, None, publish);
      t.dialed == [Domain + ":443"] && t.configLoads == 1
      && t.published == [GoChecker.PublishInput(
           GoChecker.ExpiryMessage(Domain, 60, formatRFC822(now + 60 * GoTime.Day)),
           Domain + " Certificate Expiring Soon", Topic)]
  {
    GoEnvFacts();
    GoHealthyGuards(now);
    GoProperties.PublishPath(GoEnv(), now, formatRFC822, dial, publish);
  }

  lemma GoEnvFacts()
    ensures GoChecker.CheckEnv(GoEnv()).Ok?
    ensures GoChecker.Address(GoChecker.Getenv(GoEnv(), GoChecker.DOMAIN_NAME)) == Domain + ":443"
    ensures GoChecker.Getenv(GoEnv(), GoChecker.SNS_TOPIC_ARN) == Topic
    ensures Strconv.Atoi(GoChecker.Getenv(GoEnv(), GoChecker.BUFFER_IN_DAYS)) == Ok(30)
  {
    GoSettings();
    ThirtyDays();
    assert GoChecker.Getenv(GoEnv(), GoChecker.BUFFER_IN_DAYS) == "30";
  }

  lemma GoHealthyGuards(now: GoTime.Time)
    ensures !GoChecker.ReturnsEarly(now, 30, now + 60 * GoTime.Day)
    ensures GoChecker.DaysRemaining(now + 60 * GoTime.Day, now) == 60
  {
    GoProperties.ReturnsEarlyBoundary(now, 30, now + 60 * GoTime.Day);
    WholeDaysRemaining(now, 60);
  }

  /** The same buffer and a certificate 5 days from expiry: the Go handler returns
      ("", nil) without publishing. */
  lemma GoSilentForExpiringCertificate(
    now: GoTime.Time, formatRFC822: GoTime.Time -> string,
    dial: string -> GoChecker.DialReply, configFailure: Option<string>,
    publish: GoChecker.PublishInput -> GoChecker.PublishReply)
    requires dial(Domain + ":443") == GoChecker.Connected([GoChecker.Certificate(now + 5 * GoTime.Day)])
    ensures GoChecker.Run(GoEnv(), now, formatRFC822, dial, configFailure, publish)
      == GoChecker.Trace("", None, [Domain + ":443"], 0, [])
  {
    GoEnvFacts();
    GoExpiringGuards(now);
    GoProperties.EarlyReturnPath(GoEnv(), now, formatRFC822, dial, configFailure, publish);
  }

  lemma GoExpiringGuards(now: GoTime.Time)
    ensures GoChecker.ReturnsEarly(now, 30, now + 5 * GoTime.Day)
  {
    GoProperties.ReturnsEarlyBoundary(now, 30, now + 5 * GoTime.Day);
  }

  lemma FiveDaysMessage(validTo: string)
    ensures Domain + " certificate will expire in " + "5" + " days on " + validTo + "."
      == Domain + " certificate will expire in 5 days on " + validTo + "."
  {
    assert " certificate will expire in " + "5" + " days on " == " certificate will expire in 5 days on ";
  }

  lemma JsAllDefined()
    ensures JsChecker.FirstUndefined(JsEnv()).None?
  {
    var env := JsEnv();
    assert JsChecker.Defined(env, JsChecker.DOMAIN_NAME);
    assert JsChecker.Defined(env, JsChecker.SNS_TOPIC_ARN);
    assert JsChecker.Defined(env, JsChecker.DAYS_BUFFER);
  }

  /** DAYS_BUFFER 30 and a certificate 60 days from expiry: the Node handler fulfils
      without sending. */
  lemma JsSilentForHealthyCertificate(
    nowMs: int, parseDate: string -> Option<int>, fetch: string -> JsChecker.CertReply, validTo: string)
    requires fetch(Domain) == JsChecker.Fetched(validTo)
    requires parseDate(validTo) == Some(nowMs + 60 * JsChecker.MsPerDay)
    ensures JsChecker.Run(JsEnv(), nowMs, parseDate, fetch) == JsChecker.Trace(JsChecker.Fulfilled, [Domain], [])
  {
    var env := JsEnv();
    JsAllDefined();
    ThirtyDays();
    assert env[JsChecker.DOMAIN_NAME] == Domain && env[JsChecker.DAYS_BUFFER] == Decimal(30);
    var days := JsChecker.DaysLeft(parseDate(validTo), nowMs);
    WholeDaysLeft(nowMs, 60);
    JsProperties.ReturnsEarlyAgainstInteger(days, 30);
    JsProperties.EarlyReturnPath(env, nowMs, parseDate, fetch);
  }

  /** The same buffer and a certificate 5 days from expiry: the Node handler sends one
      command whose message says "5 days". */
  lemma JsNotifiesForExpiringCertificate(
    nowMs: int, parseDate: string -> Option<int>, fetch: string -> JsChecker.CertReply, validTo: string)
    requires fetch(Domain) == JsChecker.Fetched(validTo)
    requires parseDate(validTo) == Some(nowMs + 5 * JsChecker.MsPerDay)
    ensures JsChecker.Run(JsEnv(), nowMs, parseDate, fetch) == JsChecker.Trace(JsChecker.Fulfilled, [Domain], [
      JsChecker.PublishCommand(
        Domain + " certificate will expire in 5 days on " + validTo + ".",
        Domain + " Certificate Expiring Soon",
        Topic)])
  {
    var env := JsEnv();
    JsAllDefined();
    ThirtyDays();
    assert env[JsChecker.DOMAIN_NAME] == Domain && env[JsChecker.DAYS_BUFFER] == Decimal(30);
    assert env[JsChecker.SNS_TOPIC_ARN] == Topic;
    var days := JsChecker.DaysLeft(parseDate(validTo), nowMs);
    WholeDaysLeft(nowMs, 5);
    JsProperties.ReturnsEarlyAgainstInteger(days, 30);
    JsProperties.PublishPath(env, nowMs, parseDate, fetch);
    assert JsChecker.DaysLeftText(days) == "5";
    FiveDaysMessage(validTo);
  }

  /** The same settings with the buffer written " 30". */
  function PaddedGoEnv(): GoChecker.Env {
    GoEnv()[GoChecker.BUFFER_IN_DAYS := " 30"]
  }

  function PaddedJsEnv(): JsChecker.Env {
    JsEnv()[JsChecker.DAYS_BUFFER := " 30"]
  }

  /** Go's Atoi refuses a buffer written " 30": after its one dial the handler
      returns that syntax error and publishes nothing. */
  lemma GoRefusesPaddedBuffer(
    now: GoTime.Time, formatRFC822: GoTime.Time -> string,
    dial: string -> GoChecker.DialReply, configFailure: Option<string>,
    publish: GoChecker.PublishInput -> GoChecker.PublishReply)
    requires dial(Domain + ":443").Connected? && dial(Domain + ":443").peerCertificates != []
    ensures var t := GoChecker.Run(PaddedGoEnv(), now, formatRFC822, dial, configFailure, publish);
      t.dialed == [Domain + ":443"] && t.configLoads == 0 && t.published == []
      && t.message == "" && t.err == Some(GoChecker.AtoiError(" 30", Strconv.ErrSyntax))
  {
    var env := PaddedGoEnv();
    assert GoChecker.Getenv(env, GoChecker.DOMAIN_NAME) == Domain;
    assert GoChecker.Getenv(env, GoChecker.SNS_TOPIC_ARN) == Topic;
    assert GoChecker.Getenv(env, GoChecker.BUFFER_IN_DAYS) == " 30";
    assert GoChecker.CheckEnv(env).Ok?;
    assert GoChecker.Address(Domain) == Domain + ":443";
    Strconv.AtoiRejectsLeadingSpace();
    GoProperties.BufferParsedAfterDial(env, now, formatRFC822, dial, configFailure, publish);
  }

  /** Node's comparison reads " 30" as 30: with 60 days left it returns early and
      sends nothing. */
  lemma NodeReadsPaddedBuffer(
    nowMs: int, parseDate: string -> Option<int>, fetch: string -> JsChecker.CertReply, validTo: string)
    requires fetch(Domain) == JsChecker.Fetched(validTo)
    requires parseDate(validTo) == Some(nowMs + 60 * JsChecker.MsPerDay)
    ensures JsChecker.Run(PaddedJsEnv(), nowMs, parseDate, fetch) == JsChecker.Trace(JsChecker.Fulfilled, [Domain], [])
  {
    var env := PaddedJsEnv();
    assert JsChecker.Defined(env, JsChecker.DOMAIN_NAME);
    assert JsChecker.Defined(env, JsChecker.SNS_TOPIC_ARN);
    assert JsChecker.Defined(env, JsChecker.DAYS_BUFFER);
    assert env[JsChecker.DOMAIN_NAME] == Domain && env[JsChecker.DAYS_BUFFER] == " 30";
    WholeDaysLeft(nowMs, 60);
    JsNumbers.ToNumberOfPadded();
    JsProperties.EarlyReturnPath(env, nowMs, parseDate, fetch);
  }

  /** Outside `NotifyDecisionsCompared`'s assumptions (one integer buffer, given to Node
      as its plain decimal text) both handlers can stay silent: with a buffer written
      " 30" and a certificate 60 days from expiry neither notifies. */
  lemma PaddedBufferSilencesBoth(
    now: GoTime.Time, formatRFC822: GoTime.Time -> string,
    dial: string -> GoChecker.DialReply, configFailure: Option<string>,
    publish: GoChecker.PublishInput -> GoChecker.PublishReply,
    nowMs: int, parseDate: string -> Option<int>, fetch: string -> JsChecker.CertReply, validTo: string)
    requires dial(Domain + ":443") == GoChecker.Connected([GoChecker.Certificate(now + 60 * GoTime.Day)])
    requires fetch(Domain) == JsChecker.Fetched(validTo)
    requires parseDate(validTo) == Some(nowMs + 60 * JsChecker.MsPerDay)
    ensures GoChecker.Run(PaddedGoEnv(), now, formatRFC822, dial, configFailure, publish).published == []
    ensures JsChecker.Run(PaddedJsEnv(), nowMs, parseDate, fetch).sent == []
  {
    GoRefusesPaddedBuffer(now, formatRFC822, dial, configFailure, publish);
    NodeReadsPaddedBuffer(nowMs, parseDate, fetch, validTo);
  }
}
