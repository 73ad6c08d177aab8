/** Governed runs of hosted/budget_gateway/workspaces.py: rows, and the calls they stand for. */
module Metering {
  import opened Common
  import opened Credits

  type Month(==,!new,0)
  type Work(==,!new,0)

  datatype RunKey = RunKey(ws: Workspace, month: Month, work: Work)

  datatype RunState = Held | Billed

  /** One row of `governed_runs`. */
  datatype Run = Run(paid: bool, state: RunState, inflight: int)

  type Runs = map<RunKey, Run>

  // ---- The calls behind the rows ----

  datatype CallEvent = Admitted(key: RunKey) | Finished(key: RunKey, answered: bool) | Restarted

  /** Admitted calls of `k` not finished yet. A restart loses them all. */
  function OpenCalls(history: seq<CallEvent>, k: RunKey): int {
    if history == [] then 0
    else
      var before := OpenCalls(history[..|history| - 1], k);
      match history[|history| - 1]
      case Admitted(key) => if key == k then before + 1 else before
      case Finished(key, _) => if key == k then before - 1 else before
      case Restarted => 0
  }

  /** Whether some call of `k` was answered. */
  predicate EverAnswered(history: seq<CallEvent>, k: RunKey) {
    exists i :: 0 <= i < |history| && history[i] == Finished(k, true)
  }

  /** A row exists exactly when its run has an open or an answered call; it is billed exactly when one
      was answered; and `inflight` is the number of open calls. */
  ghost predicate Refines(runs: Runs, history: seq<CallEvent>) {
    forall k ::
      && OpenCalls(history, k) >= 0
      && (k in runs <==> OpenCalls(history, k) > 0 || EverAnswered(history, k))
      && (k in runs ==>
            runs[k].inflight == OpenCalls(history, k) && (runs[k].state.Billed? <==> EverAnswered(history, k)))
  }

  lemma HistoryGrows(history: seq<CallEvent>, e: CallEvent)
    ensures forall k ::
              OpenCalls(history + [e], k) ==
              (match e
               case Admitted(key) => OpenCalls(history, k) + (if key == k then 1 else 0)
               case Finished(key, _) => OpenCalls(history, k) - (if key == k then 1 else 0)
               case Restarted => 0)
    ensures forall k :: EverAnswered(history + [e], k) <==> EverAnswered(history, k) || e == Finished(k, true)
  {
    assert (history + [e])[..|history|] == history;
    forall k
      ensures EverAnswered(history + [e], k) <==> EverAnswered(history, k) || e == Finished(k, true)
    {
      if EverAnswered(history, k) {
        var i :| 0 <= i < |history| && history[i] == Finished(k, true);
        assert (history + [e])[i] == Finished(k, true);
      }
      assert (history + [e])[|history|] == e;
    }
  }

  // ---- Row updates ----

  function AfterAdmit(runs: Runs, k: RunKey, paid: bool): Runs {
    if k in runs then runs[k := runs[k].(inflight := runs[k].inflight + 1)]
    else runs[k := Run(paid, Held, 1)]
  }

  function AfterFinish(runs: Runs, k: RunKey, answered: bool): Runs {
    if k !in runs then runs
    else
      var left := Max(runs[k].inflight - 1, 0);
      if answered then runs[k := runs[k].(state := Billed, inflight := left)]
      else if runs[k].state.Held? && left == 0 then runs - {k}
      else runs[k := runs[k].(inflight := left)]
  }

  function AfterRestart(runs: Runs): Runs {
    map k | k in runs && runs[k].state.Billed? :: runs[k].(inflight := 0)
  }

  lemma AdmitRefines(runs: Runs, history: seq<CallEvent>, k: RunKey, paid: bool)
    requires Refines(runs, history)
    ensures Refines(AfterAdmit(runs, k, paid), history + [Admitted(k)])
  {
  }

  lemma FinishRefines(runs: Runs, history: seq<CallEvent>, k: RunKey, answered: bool)
    requires Refines(runs, history) && OpenCalls(history, k) > 0
    ensures Refines(AfterFinish(runs, k, answered), history + [Finished(k, answered)])
  {
    HistoryGrows(history, Finished(k, answered));
  }

  lemma RestartRefines(runs: Runs, history: seq<CallEvent>)
    requires Refines(runs, history)
    ensures Refines(AfterRestart(runs), history + [Restarted])
  {
  }

  // ---- Counting rows ----

  function MonthKeys(runs: Runs, ws: Workspace, month: Month): set<RunKey> {
    set k | k in runs && k.ws == ws && k.month == month
  }

  function PaidKeys(runs: Runs, ws: Workspace): set<RunKey> {
    set k | k in runs && k.ws == ws && runs[k].paid
  }

  function FreeKeys(runs: Runs, ws: Workspace, month: Month): set<RunKey> {
    set k | k in runs && k.ws == ws && k.month == month && !runs[k].paid
  }

  /** `SELECT COUNT(*)` of the month's rows, and of the rows that hold a credit. */
  function MonthRuns(runs: Runs, ws: Workspace, month: Month): nat {
    |MonthKeys(runs, ws, month)|
  }

  function PaidRuns(runs: Runs, ws: Workspace): nat {
    |PaidKeys(runs, ws)|
  }

  function FreeRuns(runs: Runs, ws: Workspace, month: Month): nat {
    |FreeKeys(runs, ws, month)|
  }

  lemma CountsAfterInsert(runs: Runs, k: RunKey, paid: bool, ws: Workspace, month: Month)
    requires k !in runs
    ensures var runs' := AfterAdmit(runs, k, paid);
            && MonthRuns(runs', ws, month)
               == MonthRuns(runs, ws, month) + (if k.ws == ws && k.month == month then 1 else 0)
            && PaidRuns(runs', ws) == PaidRuns(runs, ws) + (if k.ws == ws && paid then 1 else 0)
            && FreeRuns(runs', ws, month)
               == FreeRuns(runs, ws, month) + (if k.ws == ws && k.month == month && !paid then 1 else 0)
  {
    var runs' := AfterAdmit(runs, k, paid);
    CountsOneMore(k, MonthKeys(runs, ws, month), MonthKeys(runs', ws, month), k.ws == ws && k.month == month);
    CountsOneMore(k, PaidKeys(runs, ws), PaidKeys(runs', ws), k.ws == ws && paid);
    CountsOneMore(k, FreeKeys(runs, ws, month), FreeKeys(runs', ws, month),
                  k.ws == ws && k.month == month && !paid);
  }

  lemma CountsOneMore(k: RunKey, keys: set<RunKey>, keys': set<RunKey>, counted: bool)
    requires k !in keys && (forall x :: x in keys' <==> x in keys || (x == k && counted))
    ensures |keys'| == |keys| + (if counted then 1 else 0)
  {
    if counted {
      assert keys' == keys + {k};
    } else {
      assert keys' == keys;
    }
  }

  /** Dropping rows, or touching other columns, never raises a count. */
  lemma CountsNeverRise(runs: Runs, runs': Runs, ws: Workspace, month: Month)
    requires forall k :: k in runs' ==> k in runs && runs'[k].paid == runs[k].paid
    ensures MonthRuns(runs', ws, month) <= MonthRuns(runs, ws, month)
    ensures PaidRuns(runs', ws) <= PaidRuns(runs, ws)
    ensures FreeRuns(runs', ws, month) <= FreeRuns(runs, ws, month)
  {
    SubsetCount(MonthKeys(runs', ws, month), MonthKeys(runs, ws, month));
    SubsetCount(PaidKeys(runs', ws), PaidKeys(runs, ws));
    SubsetCount(FreeKeys(runs', ws, month), FreeKeys(runs, ws, month));
  }

  lemma SameCounts(runs: Runs, runs': Runs, ws: Workspace, month: Month)
    requires runs'.Keys == runs.Keys && forall k :: k in runs ==> runs'[k].paid == runs[k].paid
    ensures MonthRuns(runs', ws, month) == MonthRuns(runs, ws, month)
    ensures PaidRuns(runs', ws) == PaidRuns(runs, ws)
    ensures FreeRuns(runs', ws, month) == FreeRuns(runs, ws, month)
  {
    assert MonthKeys(runs', ws, month) == MonthKeys(runs, ws, month);
    assert PaidKeys(runs', ws) == PaidKeys(runs, ws);
    assert FreeKeys(runs', ws, month) == FreeKeys(runs, ws, month);
  }

  lemma FreeWithinMonth(runs: Runs, ws: Workspace, month: Month)
    ensures FreeRuns(runs, ws, month) <= MonthRuns(runs, ws, month)
  {
    SubsetCount(FreeKeys(runs, ws, month), MonthKeys(runs, ws, month));
  }

  /** The units in use: free rows fit the allowance, rows that took a credit fit the credits granted. */
  ghost predicate WithinAllowance(runs: Runs, free: int, grants: seq<Grant>) {
    && (forall ws, month :: FreeRuns(runs, ws, month) <= Max(free, 0))
    && (forall ws :: PaidRuns(runs, ws) <= GrantedRuns(grants, ws))
  }
}
