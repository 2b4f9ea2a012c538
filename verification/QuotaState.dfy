/** The quota row as the code holds it during a transaction: an object changed step by step. */
module QuotaState {
  import opened Basics
  import opened Time
  import Spec = QuotaSpec

  class QuotaState {
    var day: int
    var dailyConsumed: nat
    var cooldownUntil: Option<int>
    var cooldownUnknown: bool
    var providerRemaining: Option<nat>
    var providerResetAt: Option<int>

    function View(): Spec.Quota
      reads this
    {
      Spec.Quota(day, dailyConsumed, cooldownUntil, cooldownUnknown, providerRemaining, providerResetAt)
    }

    constructor Read(row: Spec.Quota)
      ensures View() == row
    {
      day, dailyConsumed := row.day, row.consumed;
      cooldownUntil, cooldownUnknown := row.cooldown, row.unknown;
      providerRemaining, providerResetAt := row.remaining, row.reset;
    }

    method ExpireFeedback(now: int)
      modifies this
      ensures View() == Spec.ExpireFeedback(old(View()), now)
    {
      if providerResetAt.Some? && providerResetAt.value <= now {
        providerRemaining := None;
        providerResetAt := None;
      }
      if cooldownUntil.Some? && cooldownUntil.value <= now {
        if providerResetAt.None? && providerRemaining == Some(0) {
          providerRemaining := None;
        }
        cooldownUntil := None;
        cooldownUnknown := false;
      }
    }

    method AdvanceDay(now: int) returns (ok: bool)
      modifies this
      ensures ok <==> Spec.AdvanceDay(old(View()), now).Ok?
      ensures View() == if ok then Spec.AdvanceDay(old(View()), now).value else old(View())
    {
      if DayOf(now) < day {
        return false;
      }
      if DayOf(now) > day {
        day := DayOf(now);
        dailyConsumed := 0;
        if providerResetAt.None? {
          providerRemaining := None;
        }
      }
      ExpireFeedback(now);
      ok := true;
    }

    method EnsureUnknownCooldown(now: int)
      modifies this
      ensures View() == Spec.EnsureUnknownCooldown(old(View()), now)
    {
      if providerRemaining == Some(0) && providerResetAt.None? && cooldownUntil.None? {
        cooldownUntil := Some(now + MINUTE);
        cooldownUnknown := true;
      }
    }

    /** On failure the raised cooldown stays in the object, which its transaction then discards. */
    method ApplyFeedback(feedback: Spec.Feedback, now: int, unobserved: nat) returns (ok: bool)
      modifies this
      ensures ok <==> Spec.ApplyFeedback(old(View()), feedback, now, unobserved).Ok?
      ensures View() == if ok then Spec.ApplyFeedback(old(View()), feedback, now, unobserved).value
                        else Spec.RaiseCooldown(Spec.ExpireFeedback(old(View()), now), feedback, now)
    {
      ExpireFeedback(now);
      if feedback.cooldown.Some? && feedback.cooldown.value > now {
        if cooldownUntil.None? || feedback.cooldown.value > cooldownUntil.value {
          cooldownUntil := feedback.cooldown;
          cooldownUnknown := feedback.unknownReset;
        } else if cooldownUntil == feedback.cooldown {
          cooldownUnknown := cooldownUnknown || feedback.unknownReset;
        }
      }
      if feedback.reset.Some? && feedback.reset.value <= now {
        return true;
      }
      if feedback.remaining.Some? {
        var remaining := feedback.remaining.value;
        if remaining > I64_MAX {
          return false;
        }
        providerRemaining := if providerRemaining.None? then Some(SaturatingSub(remaining, unobserved))
                             else Some(Min(providerRemaining.value, remaining));
      }
      if feedback.reset.Some? {
        providerResetAt := if providerResetAt.None? then feedback.reset
                           else Some(Max(providerResetAt.value, feedback.reset.value));
      }
      EnsureUnknownCooldown(now);
      ok := true;
    }

    /** The changes a granted reservation makes to the row. */
    method Spend(now: int)
      modifies this
      ensures View() == Spec.EnsureUnknownCooldown(
                old(View()).(consumed := old(View()).consumed + 1,
                             remaining := if old(View()).remaining.Some?
                                          then Some(SaturatingSub(old(View()).remaining.value, 1)) else None), now)
    {
      dailyConsumed := dailyConsumed + 1;
      if providerRemaining.Some? {
        providerRemaining := Some(SaturatingSub(providerRemaining.value, 1));
      }
      EnsureUnknownCooldown(now);
    }
  }

  /** The longest of the waits that block, accumulated condition by condition. */
  method QuotaDecision(state: QuotaState, attempts: seq<int>, limits: Spec.Limits, now: int, actual: int)
    returns (d: Spec.Decision)
    ensures d == Spec.Decide(Spec.Rows(state.View(), attempts), limits, now, actual)
  {
    var delay, blocked, unknown, until := RowWaits(state, limits, now, actual);
    if limits.minute > 0 {
      var recent := Spec.Recent(attempts, now);
      if |recent| >= limits.minute {
        blocked := true;
        delay, until := Longer(delay, until, recent[|recent| - limits.minute] + MINUTE, actual);
      }
    }
    assert until == Spec.ClearTime(Spec.Rows(state.View(), attempts), limits, now);
    d := Spec.Decision(blocked, if blocked && !unknown then Some(Max(1, delay)) else None);
  }

  /** The conditions held in the row itself: cooldown, day counter and provider allowance. */
  method RowWaits(state: QuotaState, limits: Spec.Limits, now: int, actual: int)
    returns (delay: int, blocked: bool, unknown: bool, ghost until: int)
    ensures var q := state.View();
            && until == Max(now, Max(Max(Spec.CooldownClears(q, now), Spec.DayClears(q, limits, now)),
                                     Spec.ProviderClears(q, now)))
            && delay == DelaySeconds(until, actual)
            && (blocked <==> actual < now || Spec.CooldownBlocks(q, now) || Spec.DayBlocks(q, limits)
                             || Spec.ProviderBlocks(q))
            && (unknown <==> Spec.EndUnknown(q, now))
  {
    until := now;
    delay := DelaySeconds(now, actual);
    blocked := actual < now;
    unknown := false;
    if state.cooldownUntil.Some? && state.cooldownUntil.value > now {
      blocked := true;
      delay, until := Longer(delay, until, state.cooldownUntil.value, actual);
      unknown := state.cooldownUnknown;
    }
    if state.dailyConsumed >= limits.day {
      blocked := true;
      delay, until := Longer(delay, until, NextDay(now), actual);
    }
    if state.providerRemaining == Some(0) {
      blocked := true;
      if state.providerResetAt.Some? && state.providerResetAt.value > now {
        delay, until := Longer(delay, until, state.providerResetAt.value, actual);
      } else {
        unknown := true;
      }
    }
  }

  /** `delay.max(delay_seconds(t, actual))`, with the instant that the accumulated delay stands for. */
  method Longer(delay: int, ghost until: int, t: int, actual: int) returns (longer: int, ghost later: int)
    requires delay == DelaySeconds(until, actual)
    ensures later == Max(until, t) && longer == DelaySeconds(later, actual)
  {
    DelayOfLatest(until, t, actual);
    longer, later := Max(delay, DelaySeconds(t, actual)), Max(until, t);
  }
}
