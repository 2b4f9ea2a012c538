/**
 The storage object. Each method is one stretch of the code that nothing can interleave with, and its
 contract says which step of the quota engine it takes; `Reserve` and `SaveFeedback` are whole calls.
 */
module Storage {
  import opened Basics
  import opened Time
  import opened QuotaSpec
  import opened QuotaEngine
  import Row = QuotaState

  datatype ReservationError = Failed(error: StorageError) | Limited(retryAfter: Option<nat>)

  /** What became of a commit: it failed, it landed, or it landed while its caller got an error. */
  datatype CommitFate = NotCommitted | Reported | Unreported

  function FateEvent(fate: CommitFate): Event {
    match fate
    case NotCommitted => Abort
    case Reported => Commit(true)
    case Unreported => Commit(false)
  }

  class Storage {
    // The database.
    var clockHighWater: int
    var rows: PerProvider<Rows>
    // The runtime state behind its mutex, and the gate's holder.
    var highWater: int
    var submissions: nat
    var pending: PerProvider<Option<Pending>>
    var open: Txn
    const limits: PerProvider<Limits>
    // History, which only specifications speak of.
    var grants: PerProvider<seq<Grant>>
    var submitted: PerProvider<seq<Feedback>>
    var dispatched: PerProvider<seq<int>>

    ghost function GroupView(p: ProviderId): Group
      reads this
    {
      Group(rows.Get(p), pending.Get(p), limits.Get(p), grants.Get(p), submitted.Get(p), dispatched.Get(p))
    }

    ghost function View(): Engine
      reads this
    {
      Engine(clockHighWater, highWater, submissions, PerProvider(GroupView(Abuseipdb), GroupView(Virustotal)), open)
    }

    /** Creates the database. */
    constructor Create(wall: int, limits: PerProvider<Limits>)
      ensures View() == Initial(wall, limits)
    {
      clockHighWater, highWater, submissions, open := wall, wall, 0, Idle;
      var empty := Rows(Quota(DayOf(wall), 0, None, false, None, None), []);
      rows := PerProvider(empty, empty);
      pending := PerProvider(None, None);
      this.limits := limits;
      grants, submitted, dispatched := PerProvider([], []), PerProvider([], []), PerProvider([], []);
    }

    /** Opens what an earlier process left, after `stopped` landed or lost its last transaction. */
    constructor Reopen(ghost before: Engine, ghost landed: bool, stopped: Engine, wall: int, limits: PerProvider<Limits>)
      requires stopped == if landed && before.txn.Active? && before.txn.stage.Staged? then Land(before) else before
      ensures View() == Exec(before, Restart(wall, limits, landed))
    {
      clockHighWater := stopped.durableHighWater;
      highWater := Max(stopped.durableHighWater, wall);
      submissions, open := 0, Idle;
      rows := PerProvider(stopped.groups.abuseipdb.rows, stopped.groups.virustotal.rows);
      pending := PerProvider(None, None);
      this.limits := limits;
      grants := PerProvider(stopped.groups.abuseipdb.grants, stopped.groups.virustotal.grants);
      submitted := PerProvider([], []);
      dispatched := PerProvider(stopped.groups.abuseipdb.dispatched, stopped.groups.virustotal.dispatched);
    }

    /** The first stretch of `feedback`: it runs before anything can be cancelled. */
    method Submit(p: ProviderId, feedback: Feedback)
      modifies this
      ensures View() == Exec(old(View()), Event.Submit(p, feedback))
    {
      submissions := submissions + 1;
      var waiting := pending.Get(p);
      var merged := if waiting.Some? then MergeFeedback(waiting.value.feedback, feedback) else feedback;
      pending := pending.Set(p, Some(Pending(submissions, merged)));
      submitted := submitted.Set(p, submitted.Get(p) + [feedback]);
    }

    /** Takes the gate, reads the clock and snapshots the waiting report; refuses while the clock is behind. */
    method BeginReserve(p: ProviderId, wall: int) returns (early: Option<nat>)
      requires open.Idle?
      modifies this
      ensures View() == Exec(old(View()), Event.BeginReserve(p, wall))
      ensures early == if wall < old(highWater) then Some(DelaySeconds(old(highWater), wall)) else None
      ensures open.Active? <==> early.None?
    {
      highWater := Max(highWater, wall);
      if wall < highWater {
        early := Some(DelaySeconds(highWater, wall));
      } else {
        early := None;
        open := Active(Reserving, p, highWater, pending.Get(p), |submitted.Get(p)|, submissions, Staged);
      }
    }

    method BeginSave(p: ProviderId, wall: int)
      requires open.Idle?
      modifies this
      ensures View() == Exec(old(View()), Event.BeginSave(p, wall))
    {
      highWater := Max(highWater, wall);
      if pending.Get(p).Some? {
        open := Active(Saving, p, highWater, pending.Get(p), |submitted.Get(p)|, submissions, Staged);
      }
    }

    /** The transaction of `reserve`: row changes, purge, decision, spending and the new timestamp. */
    method ComputeReservation() returns (res: Result<Reservation, StorageError>)
      requires open.Active?
      ensures res == ReserveTx(rows.Get(open.group), limits.Get(open.group), Waiting(open.saved), open.now)
    {
      var p, now := open.group, open.now;
      var l := limits.Get(p);
      var state := new Row.QuotaState.Read(rows.Get(p).quota);
      var ok := state.AdvanceDay(now);
      if !ok {
        return Err(InvalidData);
      }
      if open.saved.Some? {
        ok := state.ApplyFeedback(open.saved.value.feedback, now, l.unobserved);
        if !ok {
          return Err(InvalidData);
        }
      }
      var attempts := Recent(rows.Get(p).attempts, now);
      ghost var prepared := Rows(state.View(), attempts);
      assert Prepared(rows.Get(p), l, Waiting(open.saved), now) == Ok(prepared);
      var decision := Row.QuotaDecision(state, attempts, l, now, now);
      if !decision.blocked {
        state.Spend(now);
        if l.minute > 0 {
          attempts := InsertAttempt(attempts, now);
        }
      }
      res := Ok(Reservation(Rows(state.View(), attempts), !decision.blocked, decision.retryAfter));
    }

    /** Runs the transaction of `reserve` to its commit, which may fail, land, or land unreported. */
    method CommitReservation(fate: CommitFate) returns (res: Result<Reservation, StorageError>)
      requires open.Active? && open.kind == Reserving && open.stage.Staged?
      modifies this
      ensures View() == Exec(old(View()), FateEvent(fate))
      ensures var tx := ReserveTx(old(rows).Get(old(open).group), limits.Get(old(open).group),
                                  Waiting(old(open).saved), old(open).now);
              res == if tx.Err? then tx else if fate == Reported then tx else Err(Unavailable)
      ensures res.Err? ==> open.Idle?
      ensures res.Ok? ==> open == old(open).(stage := Committed(res.value.granted))
    {
      var p := open.group;
      res := ComputeReservation();
      if res.Err? {
        open := Idle;
        return;
      }
      if fate != NotCommitted {
        rows := rows.Set(p, res.value.rows);
        clockHighWater := Max(clockHighWater, open.now);
        if res.value.granted {
          grants := grants.Set(p, grants.Get(p) + [Grant(open.now, limits.Get(p).minute, limits.Get(p).day)]);
        }
      }
      if fate == Reported {
        open := open.(stage := Committed(res.value.granted));
      } else {
        open := Idle;
        res := Err(Unavailable);
      }
    }

    method CommitSave(fate: CommitFate) returns (ok: bool)
      requires open.Active? && open.kind == Saving && open.stage.Staged? && open.saved.Some?
      modifies this
      ensures View() == Exec(old(View()), FateEvent(fate))
      ensures ok ==> open == old(open).(stage := Committed(false))
      ensures !ok ==> open.Idle?
      ensures ok <==> fate == Reported
                      && SaveTx(old(rows).Get(old(open).group), limits.Get(old(open).group),
                                old(open).saved.value.feedback, old(open).now).Ok?
    {
      var p := open.group;
      var state := new Row.QuotaState.Read(rows.Get(p).quota);
      ok := state.ApplyFeedback(open.saved.value.feedback, open.now, limits.Get(p).unobserved);
      if !ok {
        open := Idle;
        return;
      }
      if fate != NotCommitted {
        rows := rows.Set(p, rows.Get(p).(quota := state.View()));
        clockHighWater := Max(clockHighWater, open.now);
      }
      ok := fate == Reported;
      open := if ok then open.(stage := Committed(false)) else Idle;
    }

    method ClearPending()
      requires open.Active? && open.stage.Committed?
      modifies this
      ensures View() == Exec(old(View()), Clear)
    {
      var p := open.group;
      var waiting := pending.Get(p);
      if open.saved.Some? && waiting.Some?
         && SameGeneration(waiting.value.generation, open.saved.value.generation) {
        pending := pending.Set(p, None);
      }
      open := open.(stage := Cleared(open.stage.granted));
    }

    /** The check after the commit; a caller already past its deadline gets an error as well. */
    method FinalCheck(retryAfter: Option<nat>, late: bool) returns (r: Result<(), ReservationError>)
      requires open.Active? && open.kind == Reserving && open.stage.Cleared?
      modifies this
      ensures View() == Exec(old(View()), Finish(late))
      ensures open.Idle?
      ensures r == if late then Err(Failed(Timeout))
                   else if old(pending).Get(old(open).group).Some? then Err(Failed(Unavailable))
                   else if old(open).stage.granted then Ok(()) else Err(Limited(retryAfter))
      ensures r.Ok? <==> dispatched != old(dispatched)
    {
      var p, granted := open.group, open.stage.granted;
      open := Idle;
      if late {
        return Err(Failed(Timeout));
      }
      if pending.Get(p).Some? {
        return Err(Failed(Unavailable));
      }
      if granted {
        dispatched := dispatched.Set(p, dispatched.Get(p) + [|grants.Get(p)| - 1]);
        assert |dispatched.Get(p)| != |old(dispatched).Get(p)|;
        r := Ok(());
      } else {
        r := Err(Limited(retryAfter));
      }
    }

    /** `reserve` when nothing else runs between its steps. */
    method Reserve(p: ProviderId, wall: int, fate: CommitFate, late: bool) returns (r: Result<(), ReservationError>)
      requires open.Idle?
      modifies this
      ensures open.Idle?
      ensures wall < old(highWater) ==>
                View() == old(View()) && r == Err(Limited(Some(DelaySeconds(old(highWater), wall))))
      ensures wall >= old(highWater) ==>
                View() == Exec(Exec(Exec(Exec(old(View()), Event.BeginReserve(p, wall)), FateEvent(fate)), Clear),
                               Finish(late))
      ensures r.Ok? <==> dispatched != old(dispatched)
    {
      var early := BeginReserve(p, wall);
      if early.Some? {
        return Err(Limited(early));
      }
      ghost var begun := View();
      var res := CommitReservation(fate);
      ghost var committed := View();
      assert committed == Exec(begun, FateEvent(fate));
      if res.Err? {
        assert Exec(Exec(committed, Clear), Finish(late)) == committed;
        return Err(Failed(res.error));
      }
      ClearPending();
      r := FinalCheck(res.value.retryAfter, late);
    }

    /** `feedback` when nothing else runs between its steps. */
    method SaveFeedback(p: ProviderId, feedback: Feedback, wall: int, fate: CommitFate) returns (ok: bool)
      requires open.Idle?
      modifies this
      ensures open.Idle?
      ensures View() == Exec(Exec(Exec(Exec(Exec(old(View()), Event.Submit(p, feedback)), Event.BeginSave(p, wall)),
                                       FateEvent(fate)), Clear), Finish(false))
    {
      Submit(p, feedback);
      BeginSave(p, wall);
      ok := CommitSave(fate);
      if ok {
        ClearPending();
        open := Idle;
      }
    }

    /** The clock observation of the cache operations. */
    method ObserveTime(wall: int) returns (effective: int)
      requires open.Idle?
      modifies this
      ensures View() == Exec(old(View()), Observe(wall))
      ensures effective == highWater && effective >= wall
    {
      highWater := Max(highWater, wall);
      effective := highWater;
    }

    /** Reads without spending: nothing changes. */
    method RetryAfterQuery(p: ProviderId, wall: int) returns (r: Result<Option<nat>, StorageError>)
      ensures r == RetryAfter(rows.Get(p), limits.Get(p), Waiting(pending.Get(p)), highWater, wall)
    {
      var now := Max(highWater, wall);
      var state := new Row.QuotaState.Read(rows.Get(p).quota);
      var ok := state.AdvanceDay(now);
      if !ok {
        return Err(InvalidData);
      }
      if pending.Get(p).Some? {
        ok := state.ApplyFeedback(pending.Get(p).value.feedback, now, limits.Get(p).unobserved);
        if !ok {
          return Err(InvalidData);
        }
      }
      var decision := Row.QuotaDecision(state, rows.Get(p).attempts, limits.Get(p), now, wall);
      r := Ok(decision.retryAfter);
    }
  }
}
