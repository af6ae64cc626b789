/** What the Node handler promises, stated over its specification `JsChecker.Run`. */
module JsProperties {
  import opened Wrappers
  import opened Numerals
  import opened JsNumbers
  import opened JsChecker

  /** The first variable that is unset or empty, in the order DOMAIN_NAME, SNS_TOPIC_ARN,
      DAYS_BUFFER, is thrown; no certificate is fetched and nothing is sent. */
  lemma FirstUndefinedVariableRejects(
    env: Env, nowMs: int, parseDate: string -> Option<int>, fetch: string -> CertReply, i: nat)
    requires i < |Variables| && !Defined(env, Variables[i])
    requires forall j :: 0 <= j < i ==> Defined(env, Variables[j])
    ensures Run(env, nowMs, parseDate, fetch) == Trace(Rejected(NotDefined(Variables[i])), [], [])
  {
    var r := FirstUndefined(env);
    var k :| 0 <= k < |Variables| && r.value == Variables[k] && !Defined(env, Variables[k])
      && forall j :: 0 <= j < k ==> Defined(env, Variables[j]);
    assert k == i;
  }

  /** A rejected certificate fetch rejects `main`; nothing is sent. */
  lemma FetchRejectionRejects(
    env: Env, nowMs: int, parseDate: string -> Option<int>, fetch: string -> CertReply)
    requires FirstUndefined(env).None?
    requires fetch(env[DOMAIN_NAME]).FetchRejected?
    ensures Run(env, nowMs, parseDate, fetch)
      == Trace(Rejected(CertificateUnavailable(fetch(env[DOMAIN_NAME]).reason)), [env[DOMAIN_NAME]], [])
  {
  }

  /** Against an integer buffer, `main` returns early exactly when more whole days are left
      than the buffer: a certificate with exactly DAYS_BUFFER days left is reported. */
  lemma {:induction false} ReturnsEarlyAgainstInteger(days: Option<int>, buffer: int)
    requires days.Some?
    ensures ReturnsEarly(days, Decimal(buffer)) <==> days.value > buffer
  {
    ToNumberOfDecimal(buffer);
  }

  /** When either side is NaN (a DAYS_BUFFER that is not a number, or an Invalid Date) the
      comparison is false and the notification is sent. */
  lemma NaNNeverReturnsEarly(days: Option<int>, daysBuffer: string)
    requires days.None? || ToNumber(daysBuffer) == NaN
    ensures !ReturnsEarly(days, daysBuffer)
  {
  }

  /** DAYS_BUFFER "abc" passes the truthiness check and then never stops the send. */
  lemma WordBufferNeverReturnsEarly(days: Option<int>)
    ensures !ReturnsEarly(days, "abc")
  {
    ToNumberOfWord();
  }

  /** Whole days left round toward negative infinity: 10.5 days is 10, and a certificate
      that expired 1.5 days ago has -2. */
  lemma DaysLeftExamples(nowMs: int)
    ensures DaysLeft(Some(nowMs + 10 * MsPerDay + MsPerDay / 2), nowMs) == Some(10)
    ensures DaysLeft(Some(nowMs - MsPerDay - MsPerDay / 2), nowMs) == Some(-2)
  {
  }

  /** Past the checks, exactly one PublishCommand is sent with the composed message,
      subject and topic, and `main` fulfils. */
  lemma PublishPath(
    env: Env, nowMs: int, parseDate: string -> Option<int>, fetch: string -> CertReply)
    requires FirstUndefined(env).None?
    requires fetch(env[DOMAIN_NAME]).Fetched?
    requires !ReturnsEarly(DaysLeft(parseDate(fetch(env[DOMAIN_NAME]).validTo), nowMs), env[DAYS_BUFFER])
    ensures var domain := env[DOMAIN_NAME];
      var validTo := fetch(domain).validTo;
      var days := DaysLeft(parseDate(validTo), nowMs);
      Run(env, nowMs, parseDate, fetch) == Trace(Fulfilled, [domain], [PublishCommand(
        domain + " certificate will expire in " + DaysLeftText(days) + " days on " + validTo + ".",
        domain + " Certificate Expiring Soon",
        env[SNS_TOPIC_ARN])])
  {
  }

  /** Past the checks, when more days are left than DAYS_BUFFER, `main` fulfils without
      sending. */
  lemma EarlyReturnPath(
    env: Env, nowMs: int, parseDate: string -> Option<int>, fetch: string -> CertReply)
    requires FirstUndefined(env).None?
    requires fetch(env[DOMAIN_NAME]).Fetched?
    requires ReturnsEarly(DaysLeft(parseDate(fetch(env[DOMAIN_NAME]).validTo), nowMs), env[DAYS_BUFFER])
    ensures Run(env, nowMs, parseDate, fetch) == Trace(Fulfilled, [env[DOMAIN_NAME]], [])
  {
  }

  /** `main` fulfils without sending exactly when the variables are set, the fetch succeeds
      and more days are left than DAYS_BUFFER. */
  lemma FulfilsSilentlyExactlyWhenReturningEarly(
    env: Env, nowMs: int, parseDate: string -> Option<int>, fetch: string -> CertReply)
    ensures var t := Run(env, nowMs, parseDate, fetch);
      (t.settled == Fulfilled && t.sent == [])
      <==> (FirstUndefined(env).None? && fetch(env[DOMAIN_NAME]).Fetched?
            && ReturnsEarly(DaysLeft(parseDate(fetch(env[DOMAIN_NAME]).validTo), nowMs), env[DAYS_BUFFER]))
  {
  }

  /** The sent message starts with the domain and ends with `valid_to` and "."; the day
      count in it reads back, through the same string-to-number conversion, as the
      whole days left ("NaN" for an Invalid Date). Subject and topic are as composed. */
  lemma {:induction false} CommandCarriesFacts(domainName: string, topicArn: string, days: Option<int>, validTo: string)
    ensures var c := Command(domainName, topicArn, days, validTo);
      var at := |domainName| + |" certificate will expire in "|;
      var text := DaysLeftText(days);
      |c.message| > at + |text| + |validTo|
      && c.message[..|domainName|] == domainName
      && c.message[at..at + |text|] == text
      && (days.None? ==> text == "NaN")
      && (days.Some? ==> ToNumber(text) == FromInt(days.value))
      && c.message[|c.message| - |validTo| - 1..] == validTo + "."
      && c.subject == domainName + " Certificate Expiring Soon"
      && c.topicArn == topicArn
  {
    var text := DaysLeftText(days);
    var head := domainName + " certificate will expire in ";
    var tail := " days on " + validTo + ".";
    var m := Command(domainName, topicArn, days, validTo).message;
    assert m == head + text + tail;
    assert m[..|domainName|] == domainName by {
      assert m[..|domainName|] == head[..|domainName|];
    }
    assert m[|head|..|head| + |text|] == text by {
      assert m[..|head| + |text|] == head + text;
    }
    assert m[|m| - |validTo| - 1..] == validTo + "." by {
      assert m[|m| - |tail|..] == tail;
    }
    if days.Some? {
      ToNumberOfDecimal(days.value);
    }
  }
}
