/** What the Go handler promises, stated over its specification `GoChecker.Run`. */
module GoProperties {
  import opened Wrappers
  import opened Numerals
  import opened GoInt
  import opened GoTime
  import opened Strconv
  import opened GoChecker

  /** The first empty variable, in the order DOMAIN_NAME, SNS_TOPIC_ARN, BUFFER_IN_DAYS,
      is the error; nothing is dialled, loaded or published. */
  lemma FirstEmptyVariableFails(
    env: Env, now: Time, formatRFC822: Time -> string,
    dial: string -> DialReply, configFailure: Option<string>, publish: PublishInput -> PublishReply,
    i: nat)
    requires i < |Variables| && Getenv(env, Variables[i]) == ""
    requires forall j :: 0 <= j < i ==> Getenv(env, Variables[j]) != ""
    ensures Run(env, now, formatRFC822, dial, configFailure, publish)
      == Trace("", Some(NotDefined(Variables[i])), [], 0, [])
  {
    var r := CheckEnv(env);
    assert r.Err?;
    var k :| 0 <= k < |Variables| && r.error == NotDefined(Variables[k]) && Getenv(env, Variables[k]) == ""
      && forall j :: 0 <= j < k ==> Getenv(env, Variables[j]) != "";
    assert k == i;
  }

  /** An environment with none of the variables, or with all three set to "" as the
      handler test's `resetEnv` leaves it, fails on DOMAIN_NAME. */
  lemma EmptyEnvironmentFails(
    now: Time, formatRFC822: Time -> string,
    dial: string -> DialReply, configFailure: Option<string>, publish: PublishInput -> PublishReply)
    ensures Run(map[], now, formatRFC822, dial, configFailure, publish)
      == Trace("", Some(NotDefined(DOMAIN_NAME)), [], 0, [])
    ensures Run(map[DOMAIN_NAME := "", SNS_TOPIC_ARN := "", BUFFER_IN_DAYS := ""],
                now, formatRFC822, dial, configFailure, publish)
      == Trace("", Some(NotDefined(DOMAIN_NAME)), [], 0, [])
  {
  }

  /** With all three variables set the handler dials exactly once, to `<domain>:443`. */
  lemma DialsOnceToPort443(
    env: Env, now: Time, formatRFC822: Time -> string,
    dial: string -> DialReply, configFailure: Option<string>, publish: PublishInput -> PublishReply)
    requires LeafPresented(env, dial)
    requires forall i :: 0 <= i < |Variables| ==> Getenv(env, Variables[i]) != ""
    ensures Run(env, now, formatRFC822, dial, configFailure, publish).dialed
      == [Getenv(env, DOMAIN_NAME) + ":443"]
  {
  }

  /** A failed dial is the result; nothing is loaded or published. */
  lemma DialFailureIsResult(
    env: Env, now: Time, formatRFC822: Time -> string,
    dial: string -> DialReply, configFailure: Option<string>, publish: PublishInput -> PublishReply)
    requires LeafPresented(env, dial)
    requires CheckEnv(env).Ok?
    requires dial(Address(Getenv(env, DOMAIN_NAME))).DialFailed?
    ensures Run(env, now, formatRFC822, dial, configFailure, publish)
      == Trace("", Some(DialError(dial(Address(Getenv(env, DOMAIN_NAME))).cause)),
               [Address(Getenv(env, DOMAIN_NAME))], 0, [])
  {
  }

  /** BUFFER_IN_DAYS is parsed only after a successful dial: a value Atoi rejects is the
      result, and the dial has already happened. */
  lemma BufferParsedAfterDial(
    env: Env, now: Time, formatRFC822: Time -> string,
    dial: string -> DialReply, configFailure: Option<string>, publish: PublishInput -> PublishReply)
    requires LeafPresented(env, dial)
    requires CheckEnv(env).Ok?
    requires Atoi(Getenv(env, BUFFER_IN_DAYS)).Err?
    ensures var t := Run(env, now, formatRFC822, dial, configFailure, publish);
      var addr := Address(Getenv(env, DOMAIN_NAME));
      t.dialed == [addr] && t.configLoads == 0 && t.published == [] && t.message == ""
      && t.err == Some(
           if dial(addr).DialFailed? then DialError(dial(addr).cause)
           else AtoiError(Getenv(env, BUFFER_IN_DAYS), Atoi(Getenv(env, BUFFER_IN_DAYS)).error))
  {
  }

  /** `("", nil)` comes back exactly when the variables are set, the dial succeeds,
      the buffer parses and the threshold is strictly after the leaf's NotAfter;
      then nothing is loaded or published. */
  lemma EmptySuccessExactlyWhenThresholdAfter(
    env: Env, now: Time, formatRFC822: Time -> string,
    dial: string -> DialReply, configFailure: Option<string>, publish: PublishInput -> PublishReply)
    requires LeafPresented(env, dial)
    ensures var t := Run(env, now, formatRFC822, dial, configFailure, publish);
      var reply := dial(Address(Getenv(env, DOMAIN_NAME)));
      var parsed := Atoi(Getenv(env, BUFFER_IN_DAYS));
      (t.message == "" && t.err.None?)
      <==> (CheckEnv(env).Ok? && reply.Connected? && parsed.Ok?
            && ReturnsEarly(now, parsed.value, reply.peerCertificates[0].notAfter))
    ensures var t := Run(env, now, formatRFC822, dial, configFailure, publish);
      t.message == "" && t.err.None? ==> t.configLoads == 0 && t.published == []
  {
    var t := Run(env, now, formatRFC822, dial, configFailure, publish);
    if t.message == "" && t.err.None? {
      assert t.published == [];
    }
  }

  /** Past the checks, when the threshold is after the leaf's NotAfter, the handler
      returns ("", nil) after its one dial, without loading the config or publishing. */
  lemma EarlyReturnPath(
    env: Env, now: Time, formatRFC822: Time -> string,
    dial: string -> DialReply, configFailure: Option<string>, publish: PublishInput -> PublishReply)
    requires LeafPresented(env, dial)
    requires CheckEnv(env).Ok?
    requires dial(Address(Getenv(env, DOMAIN_NAME))).Connected?
    requires Atoi(Getenv(env, BUFFER_IN_DAYS)).Ok?
    requires ReturnsEarly(now, Atoi(Getenv(env, BUFFER_IN_DAYS)).value,
                          dial(Address(Getenv(env, DOMAIN_NAME))).peerCertificates[0].notAfter)
    ensures Run(env, now, formatRFC822, dial, configFailure, publish)
      == Trace("", None, [Address(Getenv(env, DOMAIN_NAME))], 0, [])
  {
  }

  /** Without wrap-around the threshold is `now + bufferDays` days, and the early return
      happens exactly when the certificate expires strictly before it: an expiry equal
      to the threshold takes the publish path. */
  lemma ReturnsEarlyBoundary(now: Time, bufferDays: int, expiration: Time)
    requires -MaxBufferDays <= bufferDays <= MaxBufferDays
    ensures Threshold(now, bufferDays) == now + bufferDays * Day
    ensures ReturnsEarly(now, bufferDays, expiration) <==> expiration < now + bufferDays * Day
    ensures !ReturnsEarly(now, bufferDays, now + bufferDays * Day)
  {
    assert InInt64(Day * bufferDays);
  }

  /** The early return fires for a certificate that expires INSIDE the buffer window and
      not for one that expires after it. */
  lemma ReturnsEarlyInsideWindow(now: Time, bufferDays: int, expiration: Time)
    requires 0 <= bufferDays <= MaxBufferDays
    ensures now <= expiration < now + bufferDays * Day ==> ReturnsEarly(now, bufferDays, expiration)
    ensures expiration > now + bufferDays * Day ==> !ReturnsEarly(now, bufferDays, expiration)
  {
    ReturnsEarlyBoundary(now, bufferDays, expiration);
  }

  /** One day past MaxBufferDays the Duration product wraps to a large negative value, so
      the threshold lies centuries before `now` and the handler never returns early. */
  lemma ThresholdWrapsAround(now: Time, expiration: Time)
    requires expiration >= now - 200 * 365 * Day
    ensures Threshold(now, MaxBufferDays + 1) == now + Day * 106752 - TwoTo64 < now
    ensures !ReturnsEarly(now, MaxBufferDays + 1, expiration)
  {
    assert MaxBufferDays + 1 == 106752;
    assert Day * 106752 - TwoTo64 == MulDuration(Day, 106752) by {
      assert (Day * 106752 - TwoTo64) - MinInt64 == (Day * 106752 - MinInt64) - TwoTo64;
    }
  }

  /** Days remaining truncate toward zero: negative only once the certificate has been
      expired for a whole day, zero within a day either side of now. */
  lemma DaysRemainingSign(expiration: Time, now: Time)
    ensures DaysRemaining(expiration, now) < 0 <==> expiration <= now - Day
    ensures DaysRemaining(expiration, now) == 0 <==> now - Day < expiration < now + Day
  {
    var d := Sub(expiration, now);
    if !InInt64(expiration - now) {
      assert d == MaxInt64 || d == MinInt64;
    }
  }

  /** 10.5 days ahead reads as 10 days; 1.5 days ago reads as -1 day. */
  lemma DaysRemainingExamples(now: Time)
    ensures DaysRemaining(now + 10 * Day + 12 * Hour, now) == 10
    ensures DaysRemaining(now - Day - 12 * Hour, now) == -1
  {
  }

  /** On the publish path the handler publishes once, with the subject, body and topic
      composed from the variables, and its result follows the one publish reply. */
  lemma PublishPath(
    env: Env, now: Time, formatRFC822: Time -> string,
    dial: string -> DialReply, publish: PublishInput -> PublishReply)
    requires LeafPresented(env, dial)
    requires CheckEnv(env).Ok?
    requires dial(Address(Getenv(env, DOMAIN_NAME))).Connected?
    requires Atoi(Getenv(env, BUFFER_IN_DAYS)).Ok?
    requires !ReturnsEarly(now, Atoi(Getenv(env, BUFFER_IN_DAYS)).value,
                           dial(Address(Getenv(env, DOMAIN_NAME))).peerCertificates[0].notAfter)
    ensures var t := Run(env, now, formatRFC822, dial, None, publish);
      var domain := Getenv(env, DOMAIN_NAME);
      var expiration := dial(Address(domain)).peerCertificates[0].notAfter;
      var input := PublishInput(
        domain + " certificate will expire in " + Decimal(DaysRemaining(expiration, now))
          + " days on " + formatRFC822(expiration) + ".",
        domain + " Certificate Expiring Soon",
        Getenv(env, SNS_TOPIC_ARN));
      t.dialed == [Address(domain)] && t.configLoads == 1 && t.published == [input]
      && (publish(input).Published? ==> t == Trace(MessageIdText(publish(input).messageId), None, t.dialed, 1, [input]))
      && (publish(input).PublishFailed? ==> t == Trace("", Some(PublishError(publish(input).cause)), t.dialed, 1, [input]))
  {
  }

  /** A failed config load is the result; nothing is published. */
  lemma ConfigLoadFailureIsResult(
    env: Env, now: Time, formatRFC822: Time -> string,
    dial: string -> DialReply, cause: string, publish: PublishInput -> PublishReply)
    requires LeafPresented(env, dial)
    requires CheckEnv(env).Ok?
    requires dial(Address(Getenv(env, DOMAIN_NAME))).Connected?
    requires Atoi(Getenv(env, BUFFER_IN_DAYS)).Ok?
    requires !ReturnsEarly(now, Atoi(Getenv(env, BUFFER_IN_DAYS)).value,
                           dial(Address(Getenv(env, DOMAIN_NAME))).peerCertificates[0].notAfter)
    ensures Run(env, now, formatRFC822, dial, Some(cause), publish)
      == Trace("", Some(ConfigError(cause)), [Address(Getenv(env, DOMAIN_NAME))], 1, [])
  {
  }

  /** The message body can be taken apart again: it starts with the domain, ends with the
      rendered date and a full stop, and the day count reads back with Atoi. */
  lemma {:induction false} MessageCarriesFacts(domainName: string, days: int, date: string)
    requires InInt64(days)
    ensures var m := ExpiryMessage(domainName, days, date);
      var at := |domainName| + |MessageLead|;
      |m| > at + |Decimal(days)| + |date|
      && m[..|domainName|] == domainName
      && Atoi(m[at..at + |Decimal(days)|]) == Ok(days)
      && m[|m| - |date| - 1..] == date + "."
  {
    var digits := Decimal(days);
    var head := domainName + MessageLead;
    var tail := " days on " + date + ".";
    var m := ExpiryMessage(domainName, days, date);
    assert m == head + digits + tail;
    assert |head| == |domainName| + |MessageLead|;
    assert m[..|domainName|] == domainName by {
      assert m[..|domainName|] == head[..|domainName|];
    }
    assert m[|head|..|head| + |digits|] == digits by {
      assert m[..|head| + |digits|] == head + digits;
    }
    assert m[|m| - |date| - 1..] == date + "." by {
      assert m[|m| - |tail|..] == tail;
    }
    AtoiOfDecimal(days);
  }
}
