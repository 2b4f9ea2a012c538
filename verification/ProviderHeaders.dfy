/**
 Turning response headers into quota feedback. Inputs are the numbers already parsed from the headers:
 `retryAfter` seconds (RFC 9110, section 10.2.3), and for AbuseIPDB the remaining count and reset second.
 */
module ProviderHeaders {
  import opened Basics
  import opened Time
  import opened QuotaSpec
  import opened FeedbackAlgebra

  /** Time arithmetic fails past `latest`, the last representable instant. */
  function CheckedAt(t: int, latest: int): Option<int> {
    if t <= latest then Some(t) else None
  }

  /** A header count that does not fit the signed column is ignored. */
  function Counted(n: Option<nat>): Option<nat> {
    if n.Some? && n.value <= I64_MAX then n else None
  }

  function FeedbackFromHeaders(provider: ProviderId, status: nat, retryAfter: Option<nat>,
                               remainingHeader: Option<nat>, resetHeader: Option<nat>, now: int, latest: int): Feedback
  {
    var remaining := if provider == Abuseipdb then Counted(remainingHeader) else None;
    var reset := if provider == Abuseipdb && Counted(resetHeader).Some? then CheckedAt(resetHeader.value * 1000, latest)
                 else None;
    var retryUntil := if retryAfter.Some? then CheckedAt(now + retryAfter.value * 1000, latest) else None;
    var known := LatestOf(retryUntil, if status == 429 || remaining == Some(0) then reset else None);
    var cooldown := if known.Some? then known
                    else if status == 429 then CheckedAt(now + MINUTE, latest) else None;
    Feedback(cooldown, status == 429 && known.None?, remaining, reset)
  }

  /** The instant `seconds` after `t`, unless it is past what can be represented. */
  predicate After(t: int, seconds: nat, latest: int, at: Option<int>) {
    if t + 1000 * seconds <= latest then at == Some(t + 1000 * seconds) else at.None?
  }

  /**
   Field by field: only AbuseIPDB's count and reset are read, and only if they fit. The cooldown is the later of
   what Retry-After says and, for a 429 or a count of zero, the reset; a 429 that names neither gets one minute.
   */
  lemma HeaderFields(provider: ProviderId, status: nat, retryAfter: Option<nat>, remainingHeader: Option<nat>,
                     resetHeader: Option<nat>, now: int, latest: int)
    ensures var f := FeedbackFromHeaders(provider, status, retryAfter, remainingHeader, resetHeader, now, latest);
            var ends := f.reset.Some? && (status == 429 || f.remaining == Some(0));
            && (provider == Virustotal ==> f.remaining.None? && f.reset.None?)
            && (provider == Abuseipdb ==>
                  && (f.remaining == if remainingHeader.Some? && remainingHeader.value <= 0x7fff_ffff_ffff_ffff
                                     then remainingHeader else None)
                  && (if resetHeader.Some? && resetHeader.value <= 0x7fff_ffff_ffff_ffff
                      then After(0, resetHeader.value, latest, f.reset) else f.reset.None?))
            && exists waits: Option<int> ::
                 && (if retryAfter.Some? then After(now, retryAfter.value, latest, waits) else waits.None?)
                 && (waits.Some? ==> f.cooldown.Some? && f.cooldown.value >= waits.value)
                 && (ends ==> f.cooldown.Some? && f.cooldown.value >= f.reset.value)
                 && (waits.Some? || ends ==>
                       !f.unknownReset && ((waits.Some? && f.cooldown == waits) || (ends && f.cooldown == f.reset)))
                 && (waits.None? && !ends ==>
                       (f.unknownReset <==> status == 429)
                       && if status == 429 then After(now, 60, latest, f.cooldown) else f.cooldown.None?)
  {
    var waits := if retryAfter.Some? then CheckedAt(now + retryAfter.value * 1000, latest) else None;
    assert retryAfter.Some? ==> After(now, retryAfter.value, latest, waits);
  }

  /**
   Reports read from headers always fit storage, and they are well formed exactly unless a 429 without
   a known reset arrives in the last representable minute.
   */
  lemma HeadersWellFormedIff(provider: ProviderId, status: nat, retryAfter: Option<nat>, remainingHeader: Option<nat>,
                             resetHeader: Option<nat>, now: int, latest: int)
    ensures var f := FeedbackFromHeaders(provider, status, retryAfter, remainingHeader, resetHeader, now, latest);
            && Storable(f) && !f.Oversized(now)
            && (f.WellFormed() <==> !f.unknownReset || now + MINUTE <= latest)
  {
  }

  /** A 429 always starts a cooldown, at least as long as the waits it names. */
  lemma TooManyRequestsCools(provider: ProviderId, retryAfter: Option<nat>, remainingHeader: Option<nat>,
                             resetHeader: Option<nat>, now: int, latest: int)
    requires now + MINUTE <= latest
    ensures var f := FeedbackFromHeaders(provider, 429, retryAfter, remainingHeader, resetHeader, now, latest);
            && f.cooldown.Some?
            && (retryAfter.Some? && now + retryAfter.value * 1000 <= latest ==>
                  f.cooldown.value >= now + retryAfter.value * 1000 && !f.unknownReset)
            && (f.reset.Some? ==> f.cooldown.value >= f.reset.value && !f.unknownReset)
            && (f.unknownReset ==> f.cooldown == Some(now + MINUTE))
  {
  }

  /** What the engine does with such a report: a reservation is refused until the named wait is over. */
  lemma RetryAfterIsHonoured(q: Quota, attempts: seq<int>, limits: Limits, provider: ProviderId, status: nat,
                             retryAfter: nat, remainingHeader: Option<nat>, resetHeader: Option<nat>,
                             now: int, latest: int, t: int)
    requires now <= t < now + retryAfter * 1000 <= latest && q.day <= DayOf(now)
    ensures var f := FeedbackFromHeaders(provider, status, Some(retryAfter), remainingHeader, resetHeader, now, latest);
            var saved := SaveTx(Rows(q, attempts), limits, f, now);
            saved.Ok? && ReserveTx(saved.value, limits, None, t).Ok? && !ReserveTx(saved.value, limits, None, t).value.granted
  {
    var f := FeedbackFromHeaders(provider, status, Some(retryAfter), remainingHeader, resetHeader, now, latest);
    HeadersWellFormedIff(provider, status, Some(retryAfter), remainingHeader, resetHeader, now, latest);
    CooldownReached(q, f, now, limits.unobserved);
    DayMonotone(now, t);
    var q1 := ApplyFeedback(q, f, now, limits.unobserved).value;
    assert CooldownBlocks(AdvanceDay(q1, t).value, t);
  }

  lemma CooldownReached(q: Quota, f: Feedback, now: int, unobserved: nat)
    requires !f.Oversized(now) && f.cooldown.Some? && f.cooldown.value > now
    ensures var q1 := ApplyFeedback(q, f, now, unobserved);
            q1.Ok? && q1.value.day == q.day && q1.value.cooldown.Some? && q1.value.cooldown.value >= f.cooldown.value
  {
  }
}
