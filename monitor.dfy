/**
 * monitor_job: the loop that follows one submitted print job to its end.
 * Each pass of the loop reads the clock, asks lpstat about the job, and
 * either ends the job (cancel, broadcast, status report, cool-down, clear
 * the "handling print error" flag) or sleeps two seconds and goes round
 * again. Whatever the clock, the subprocesses, lsusb and the status POSTs
 * answer in one pass is an Observation; the loop itself is a method over a
 * finite sequence of them, proved against the pure functions Classify,
 * TickEffects and RunEffects.
 */
module Monitor {
  import opened Common
  import opened Text
  import Health
  import Notify
  import Outbox
  import State
  import Printer

  /** Seconds after which the job is cancelled. */
  const JobTimeout: int := 300
  /** Seconds between passes. */
  const PollPause: nat := 2
  /** Cool-down after a failure, before the flag is cleared. */
  const FailurePause: nat := 30
  /** Cool-down after a completion, before the flag is cleared. */
  const SuccessPause: nat := 10

  /** The arguments monitor_job is started with (the printer name is unused). */
  datatype Job = Job(lpJobId: Option<string>, code: string, serverJobId: Value, kioskId: string)

  /** What the outside world answers during one pass of the loop. */
  datatype Observation = Observation(
    /** time.time() - start_time at the timeout check. */
    elapsed: int,
    /** The same difference read again once the job has left the queue. */
    elapsedAgain: int,
    /** `lpstat -o <id>`. */
    query: ProcOutput,
    /** `lpstat -W not-completed`. */
    listing: ProcOutput,
    /** The lsusb run behind printer_connected(). */
    lsusb: ProcOutput,
    /** The answer to the first status report of the pass. */
    reply: HttpReply,
    /** The answer to a second status report in the same pass. */
    laterReply: HttpReply,
    /** datetime.now() for the first report queued in this pass. */
    timestamp: string,
    /** datetime.now() for a second report queued in the same pass. */
    laterTimestamp: string,
    /** How the outbox file's write for the first report ends. */
    save: Outbox.SaveOutcome,
    /** How the outbox file's write for a second report ends. */
    laterSave: Outbox.SaveOutcome)

  /** The branch one pass of the loop takes. */
  datatype Step =
    /** Past the timeout: cancel, report "Print Timed Out", end. */
    | Expired
    /** An exception inside the pass (no job id, lpstat timed out or failed): sleep and retry. */
    | Unobserved
    /** The job is still queued with no error text: sleep and retry. */
    | Queued
    /** The job's status text mentions an error or an abort: cancel, report "Print error", end. */
    | Errored
    /** The job left the queue and the printer is present: DONE, report success, end. */
    | Finished
    /** The job left the queue, the printer is gone and there is no code: PRINT_FAILED, end. */
    | PrinterGone
    /**
     * As PrinterGone with a code: the misspelt `run_until_completed` raises
     * AttributeError after the broadcast, the pass's handler swallows it,
     * and the loop goes on.
     */
    | PrinterGoneRaised
    /**
     * The second clock reading is negative (the wall clock stepped back):
     * report "Job failed immediately" and clear the flag without leaving
     * the loop, then fall through to the error-text check.
     */
    | Vanished(errored: bool)

  /** The error-text test on the job query's output. */
  predicate ErrorText(out: string)
  {
    Contains(Lower(out), "error") || Contains(Lower(out), "aborted")
  }

  /** Which branch one pass takes. */
  function Classify(job: Job, obs: Observation): Step
  {
    if obs.elapsed > JobTimeout then Expired
    else if job.lpJobId.None? then Unobserved
    else
      match obs.query
      case Completed(rc, out, _) =>
        if rc != 0 || out == "" then
          if obs.elapsedAgain < 0 then Vanished(ErrorText(out))
          else
            match obs.listing
            case Completed(_, listed, _) =>
              if Contains(listed, job.lpJobId.value) then (if ErrorText(out) then Errored else Queued)
              else if Health.PrinterConnected(obs.lsusb) then Finished
              else if job.code != "" then PrinterGoneRaised
              else PrinterGone
            case _ => Unobserved
        else if ErrorText(out) then Errored
        else Queued
      case _ => Unobserved
  }

  /** The passes after which the loop is left (and the temporary file deleted). */
  predicate Ends(step: Step)
  {
    step.Expired? || step.Errored? || step.Finished? || step.PrinterGone? || step == Vanished(true)
  }

  /** The passes that clear the flag. */
  predicate ClearsFlag(step: Step)
  {
    Ends(step) || step.Vanished?
  }

  /** The failure report, attempted only when there is a code. */
  function FailureNotice(job: Job, reason: string): seq<Effect>
  {
    if job.code != "" then [Notified(Notify.FailurePayload(job.code, job.serverJobId, job.kioskId, reason))] else []
  }

  /** The success report, attempted only when there is a code. */
  function SuccessNotice(job: Job): seq<Effect>
  {
    if job.code != "" then [Notified(Notify.SuccessPayload(job.code, job.serverJobId, job.kioskId))] else []
  }

  /** PRINT_FAILED, the report, the failure cool-down, the flag cleared. */
  function FailureEnding(job: Job, reason: string): seq<Effect>
  {
    [Broadcast(PrintFailed)] + FailureNotice(job, reason) + [Sleep(FailurePause), SetFlag(false)]
  }

  /** What one pass visibly does, in order. */
  function TickEffects(job: Job, obs: Observation): seq<Effect>
  {
    StepEffects(job, Classify(job, obs))
  }

  /** What a pass of the given kind visibly does, in order. */
  function StepEffects(job: Job, step: Step): seq<Effect>
  {
    match step
    case Expired => [CancelJob(job.lpJobId)] + FailureEnding(job, "Print Timed Out")
    case Errored => [CancelJob(job.lpJobId)] + FailureEnding(job, "Print error")
    case Finished => [Broadcast(Done)] + SuccessNotice(job) + [Sleep(SuccessPause), SetFlag(false)]
    case PrinterGone => FailureEnding(job, "Cups print job completed but printer connection interuppted")
    case PrinterGoneRaised => [Broadcast(PrintFailed), Sleep(PollPause)]
    case Vanished(errored) =>
      FailureEnding(job, "Job failed immediately")
      + (if errored then [CancelJob(job.lpJobId)] + FailureEnding(job, "Print error") else [Sleep(PollPause)])
    case Unobserved => [Sleep(PollPause)]
    case Queued => [Sleep(PollPause)]
  }

  /** The failure report queued by notify_server_failed, when there is a code. */
  function FailureBacklog(job: Job, reason: string, reply: HttpReply, timestamp: string): seq<Outbox.Notification>
  {
    if job.code != "" then Notify.FailureBacklog(job.kioskId, job.code, job.serverJobId, reason, reply, timestamp) else []
  }

  /** What one pass adds to the outbox. */
  function TickBacklog(job: Job, obs: Observation): seq<Outbox.Notification>
  {
    match Classify(job, obs)
    case Expired => FailureBacklog(job, "Print Timed Out", obs.reply, obs.timestamp)
    case Errored => FailureBacklog(job, "Print error", obs.reply, obs.timestamp)
    case Finished =>
      if job.code != "" then Notify.SuccessBacklog(job.kioskId, job.code, job.serverJobId, obs.reply, obs.timestamp) else []
    case Vanished(errored) =>
      FailureBacklog(job, "Job failed immediately", obs.reply, obs.timestamp)
      + (if errored then FailureBacklog(job, "Print error", obs.laterReply, obs.laterTimestamp) else [])
    case PrinterGone => []
    case PrinterGoneRaised => []
    case Unobserved => []
    case Queued => []
  }

  /**
   * The outbox file after one pass, from the file and the queue before it:
   * every report queued is followed by its own save_queue call.
   */
  function TickDisk(job: Job, d: Outbox.Disk, q: seq<Outbox.Notification>, obs: Observation): Outbox.Disk
  {
    match Classify(job, obs)
    case Vanished(errored) =>
      var first := FailureBacklog(job, "Job failed immediately", obs.reply, obs.timestamp);
      var second := if errored then FailureBacklog(job, "Print error", obs.laterReply, obs.laterTimestamp) else [];
      var d1 := if first != [] then Outbox.AfterSave(d, q + first, obs.save) else d;
      if second != [] then Outbox.AfterSave(d1, q + first + second, obs.laterSave) else d1
    case _ =>
      if TickBacklog(job, obs) != [] then Outbox.AfterSave(d, q + TickBacklog(job, obs), obs.save) else d
  }

  /** A pass that queues nothing leaves the file alone. */
  lemma QuietPassKeepsFile(job: Job, d: Outbox.Disk, q: seq<Outbox.Notification>, obs: Observation)
    requires TickBacklog(job, obs) == []
    ensures TickDisk(job, d, q, obs) == d
  {
    match Classify(job, obs)
    case Vanished(errored) =>
      var first := FailureBacklog(job, "Job failed immediately", obs.reply, obs.timestamp);
      assert first == TickBacklog(job, obs)[..|first|];
    case _ =>
  }

  /** When every write succeeds, the file after a pass holds the whole queue. */
  lemma WrittenPassStoresQueue(job: Job, d: Outbox.Disk, q: seq<Outbox.Notification>, obs: Observation)
    requires obs.save == Outbox.Written && obs.laterSave == Outbox.Written
    ensures TickDisk(job, d, q, obs) == (if TickBacklog(job, obs) != [] then Outbox.File(q + TickBacklog(job, obs)) else d)
  {
    match Classify(job, obs)
    case Vanished(errored) =>
      var first := FailureBacklog(job, "Job failed immediately", obs.reply, obs.timestamp);
      var second := if errored then FailureBacklog(job, "Print error", obs.laterReply, obs.laterTimestamp) else [];
      assert TickBacklog(job, obs) == first + second;
      assert q + first + second == q + (first + second);
    case _ =>
  }

  /**
   * The pass that reports twice saves twice: when the first write succeeds
   * and the second open fails, the file keeps only the first report while
   * the queue holds both.
   */
  lemma SecondSaveFailsKeepsFirstReport(job: Job, d: Outbox.Disk, q: seq<Outbox.Notification>, obs: Observation)
    requires job.code != "" && Classify(job, obs) == Vanished(true)
    requires Notify.FailureQueued(obs.reply) && Notify.FailureQueued(obs.laterReply)
    requires obs.save == Outbox.Written && obs.laterSave == Outbox.OpenFailed
    ensures |TickBacklog(job, obs)| == 2
    ensures TickDisk(job, d, q, obs) == Outbox.File(q + TickBacklog(job, obs)[..1])
    ensures Outbox.LoadQueue(TickDisk(job, d, q, obs)) == q + TickBacklog(job, obs)[..1]
  {
    var first := FailureBacklog(job, "Job failed immediately", obs.reply, obs.timestamp);
    assert |first| == 1;
    assert TickBacklog(job, obs)[..1] == first;
  }

  /** Whether the loop is left within these passes. */
  predicate Finishes(job: Job, obs: seq<Observation>)
  {
    obs != [] && (Ends(Classify(job, obs[0])) || Finishes(job, obs[1..]))
  }

  /** Whether the flag is cleared within these passes. */
  predicate Cleared(job: Job, obs: seq<Observation>)
  {
    obs != [] && (ClearsFlag(Classify(job, obs[0])) || (!Ends(Classify(job, obs[0])) && Cleared(job, obs[1..])))
  }

  /** What the loop visibly does over these passes, up to the pass that ends it. */
  function RunEffects(job: Job, obs: seq<Observation>): seq<Effect>
  {
    if obs == [] then []
    else TickEffects(job, obs[0]) + (if Ends(Classify(job, obs[0])) then [] else RunEffects(job, obs[1..]))
  }

  /** What the loop adds to the outbox over these passes. */
  function RunBacklog(job: Job, obs: seq<Observation>): seq<Outbox.Notification>
  {
    if obs == [] then []
    else TickBacklog(job, obs[0]) + (if Ends(Classify(job, obs[0])) then [] else RunBacklog(job, obs[1..]))
  }

  /** Concatenation regrouped. */
  lemma Regroup<T>(a: seq<T>, b: seq<T>, c: seq<T>)
    ensures a + b + c == a + (b + c)
  {
  }

  /** One pass peeled off the front of a run. */
  lemma RunUnfold(job: Job, obs: seq<Observation>)
    requires obs != []
    ensures RunEffects(job, obs) == TickEffects(job, obs[0]) + (if Ends(Classify(job, obs[0])) then [] else RunEffects(job, obs[1..]))
    ensures RunBacklog(job, obs) == TickBacklog(job, obs[0]) + (if Ends(Classify(job, obs[0])) then [] else RunBacklog(job, obs[1..]))
    ensures Finishes(job, obs) == (Ends(Classify(job, obs[0])) || Finishes(job, obs[1..]))
    ensures Cleared(job, obs) == (ClearsFlag(Classify(job, obs[0])) || (!Ends(Classify(job, obs[0])) && Cleared(job, obs[1..])))
  {
  }

  // ---------------------------------------------------------------- properties of the loop

  /** The wall clock never stepped back during these passes. */
  predicate ClockForward(obs: seq<Observation>)
  {
    forall k :: 0 <= k < |obs| ==> obs[k].elapsedAgain >= 0
  }

  /** A pass that does not end the loop never clears the flag, unless the clock stepped back. */
  lemma PassKeepsFlag(job: Job, o: Observation)
    requires o.elapsedAgain >= 0 && !Ends(Classify(job, o))
    ensures !ClearsFlag(Classify(job, o))
    ensures SetFlag(false) !in TickEffects(job, o)
  {
  }

  /** A pass that ends the loop clears the flag as its very last action, and only there. */
  lemma EndingPassClearsLast(job: Job, o: Observation)
    requires o.elapsedAgain >= 0 && Ends(Classify(job, o))
    ensures var e := TickEffects(job, o);
      e != [] && e[|e| - 1] == SetFlag(false) && SetFlag(false) !in e[..|e| - 1]
  {
    EndingStepClearsLast(job, Classify(job, o));
  }

  /** The ending kinds of pass other than a vanished job clear the flag last and only there. */
  lemma EndingStepClearsLast(job: Job, step: Step)
    requires Ends(step) && !step.Vanished?
    ensures var e := StepEffects(job, step);
      e != [] && e[|e| - 1] == SetFlag(false) && SetFlag(false) !in e[..|e| - 1]
  {
    match step
    case Expired =>
      FailureEndingSplits(job, "Print Timed Out", [CancelJob(job.lpJobId)]);
    case Errored =>
      FailureEndingSplits(job, "Print error", [CancelJob(job.lpJobId)]);
    case PrinterGone =>
      FailureEndingSplits(job, "Cups print job completed but printer connection interuppted", []);
    case Finished =>
      var p := [Broadcast(Done)] + SuccessNotice(job) + [Sleep(SuccessPause)];
      assert StepEffects(job, step) == p + [SetFlag(false)];
      LastOnly(p, SetFlag(false));
  }

  /** A failure ending after `pre` is some flag-free prefix followed by clearing the flag. */
  lemma FailureEndingSplits(job: Job, reason: string, pre: seq<Effect>)
    requires SetFlag(false) !in pre
    ensures var e := pre + FailureEnding(job, reason);
      e != [] && e[|e| - 1] == SetFlag(false) && SetFlag(false) !in e[..|e| - 1]
  {
    var p := pre + ([Broadcast(PrintFailed)] + FailureNotice(job, reason) + [Sleep(FailurePause)]);
    assert pre + FailureEnding(job, reason) == p + [SetFlag(false)];
    LastOnly(p, SetFlag(false));
  }

  /** `x` appended to a sequence without it is last and only there. */
  lemma LastOnly<T>(p: seq<T>, x: T)
    requires x !in p
    ensures var e := p + [x]; e[|e| - 1] == x && x !in e[..|e| - 1]
  {
    assert (p + [x])[..|p|] == p;
  }

  /**
   * With the clock going forward, the flag set at the start is cleared
   * exactly when the loop is left, as the last thing the loop does, and
   * nowhere before.
   */
  lemma {:induction false} FlagHeldUntilEnd(job: Job, obs: seq<Observation>)
    requires ClockForward(obs)
    ensures Cleared(job, obs) <==> Finishes(job, obs)
    ensures var e := RunEffects(job, obs);
      && (SetFlag(false) in e <==> Finishes(job, obs))
      && (Finishes(job, obs) ==> e[|e| - 1] == SetFlag(false) && SetFlag(false) !in e[..|e| - 1])
  {
    if obs != [] {
      RunUnfold(job, obs);
      var t := TickEffects(job, obs[0]);
      if Ends(Classify(job, obs[0])) {
        EndingPassClearsLast(job, obs[0]);
        assert RunEffects(job, obs) == t + [];
      } else {
        PassKeepsFlag(job, obs[0]);
        FlagHeldUntilEnd(job, obs[1..]);
        if Finishes(job, obs[1..]) {
          LastOnlyAfter(t, RunEffects(job, obs[1..]), SetFlag(false));
        }
      }
    }
  }

  /** An element that occurs last and only once in `b` still does so in `a + b` when `a` lacks it. */
  lemma LastOnlyAfter<T>(a: seq<T>, b: seq<T>, x: T)
    requires x !in a && b != [] && b[|b| - 1] == x && x !in b[..|b| - 1]
    ensures var e := a + b; e[|e| - 1] == x && x !in e[..|e| - 1]
  {
    assert (a + b)[..|a + b| - 1] == a + b[..|b| - 1];
  }

  /** A pass past the deadline ends the loop, so no run outlives the first such pass. */
  lemma {:induction false} DeadlineForcesEnd(job: Job, obs: seq<Observation>, k: nat)
    requires k < |obs| && obs[k].elapsed > JobTimeout
    ensures Finishes(job, obs)
  {
    if k > 0 && !Ends(Classify(job, obs[0])) {
      DeadlineForcesEnd(job, obs[1..], k - 1);
    }
  }

  /** No status report is attempted in these effects. */
  predicate Silent(e: seq<Effect>)
  {
    forall k :: 0 <= k < |e| ==> !e[k].Notified?
  }

  /** Without a code a pass attempts no report and queues nothing. */
  lemma NoCodeSilentPass(job: Job, o: Observation)
    requires job.code == ""
    ensures Silent(TickEffects(job, o)) && TickBacklog(job, o) == []
  {
    assert FailureNotice(job, "Print Timed Out") == [] && FailureNotice(job, "Print error") == [];
    assert FailureNotice(job, "Job failed immediately") == [] && SuccessNotice(job) == [];
    assert FailureNotice(job, "Cups print job completed but printer connection interuppted") == [];
  }

  /** A job submitted with an empty code never reports its outcome and never queues anything. */
  lemma {:induction false} NoCodeNoReports(job: Job, obs: seq<Observation>)
    requires job.code == ""
    ensures RunBacklog(job, obs) == []
    ensures Silent(RunEffects(job, obs))
  {
    if obs != [] {
      RunUnfold(job, obs);
      NoCodeSilentPass(job, obs[0]);
      NoCodeNoReports(job, obs[1..]);
    }
  }

  /** `n` passes of PRINT_FAILED followed by the two-second pause. */
  function Alarms(n: nat): (r: seq<Effect>)
    ensures |r| == 2 * n
  {
    if n == 0 then [] else [Broadcast(PrintFailed), Sleep(PollPause)] + Alarms(n - 1)
  }

  /** `n` two-second pauses. */
  function Pauses(n: nat): (r: seq<Effect>)
    ensures |r| == n
  {
    if n == 0 then [] else [Sleep(PollPause)] + Pauses(n - 1)
  }

  /** A pass in which the job has left the queue while the printer is unplugged. */
  predicate PrinterUnplugged(job: Job, o: Observation)
  {
    && job.lpJobId.Some?
    && o.elapsed <= JobTimeout && o.elapsedAgain >= 0
    && o.query.Completed? && o.query.returncode != 0
    && o.listing.Completed? && !Contains(o.listing.stdout, job.lpJobId.value)
    && !Health.PrinterConnected(o.lsusb)
  }

  /** An unplugged-printer pass with a code takes the branch that raises. */
  lemma UnpluggedPass(job: Job, o: Observation)
    requires job.code != "" && PrinterUnplugged(job, o)
    ensures Classify(job, o) == PrinterGoneRaised
    ensures TickEffects(job, o) == [Broadcast(PrintFailed), Sleep(PollPause)] && TickBacklog(job, o) == []
  {
  }

  /** PRINT_FAILED is broadcast once per pass in `n` alarm passes. */
  lemma {:induction false} AlarmsCount(n: nat)
    ensures multiset(Alarms(n))[Broadcast(PrintFailed)] == n
  {
    if n > 0 {
      AlarmsCount(n - 1);
      assert multiset(Alarms(n)) == multiset([Broadcast(PrintFailed), Sleep(PollPause)]) + multiset(Alarms(n - 1));
    }
  }

  /**
   * With a code, a job whose printer is unplugged never ends before the
   * timeout: every pass broadcasts PRINT_FAILED again, the flag stays set,
   * nothing is reported and nothing is queued.
   */
  lemma {:induction false} UnpluggedPrinterRepeatsFailure(job: Job, obs: seq<Observation>)
    requires job.code != ""
    requires forall k :: 0 <= k < |obs| ==> PrinterUnplugged(job, obs[k])
    ensures !Finishes(job, obs) && !Cleared(job, obs)
    ensures RunEffects(job, obs) == Alarms(|obs|)
    ensures RunBacklog(job, obs) == []
  {
    if obs != [] {
      RunUnfold(job, obs);
      UnpluggedPass(job, obs[0]);
      assert forall k :: 0 <= k < |obs[1..]| ==> obs[1..][k] == obs[k + 1];
      UnpluggedPrinterRepeatsFailure(job, obs[1..]);
      assert Alarms(|obs|) == [Broadcast(PrintFailed), Sleep(PollPause)] + Alarms(|obs[1..]|);
    }
  }

  /**
   * A job for which lp printed no id is never queried: every pass before
   * the timeout only sleeps, so it ends only through the timeout branch.
   */
  lemma {:induction false} NoJobIdWaitsForTimeout(job: Job, obs: seq<Observation>)
    requires job.lpJobId.None?
    requires forall k :: 0 <= k < |obs| ==> obs[k].elapsed <= JobTimeout
    ensures !Finishes(job, obs) && !Cleared(job, obs)
    ensures RunEffects(job, obs) == Pauses(|obs|)
    ensures RunBacklog(job, obs) == []
  {
    if obs != [] {
      assert obs[0].elapsed <= JobTimeout;
      NoJobIdWaitsForTimeout(job, obs[1..]);
    }
  }

  /** A pass whose job is still listed with clean status text does nothing but wait. */
  lemma QueuedJobWaits(job: Job, o: Observation)
    requires job.lpJobId.Some? && o.elapsed <= JobTimeout
    requires o.query.Completed? && o.query.returncode == 0 && o.query.stdout != ""
    ensures Classify(job, o) == Queued <==> !ErrorText(o.query.stdout)
    ensures !ErrorText(o.query.stdout) ==> TickEffects(job, o) == [Sleep(PollPause)] && TickBacklog(job, o) == []
  {
  }

  /**
   * With the clock going forward, every ending pass except the printer-lost
   * one, with a code, attempts exactly one report, and the report's status
   * says how the job ended.
   */
  lemma EndingReport(job: Job, o: Observation)
    requires job.code != "" && o.elapsedAgain >= 0
    requires Ends(Classify(job, o)) && !Classify(job, o).PrinterGone?
    ensures var e := TickEffects(job, o);
      exists k :: 0 <= k < |e| && e[k].Notified?
        && (forall j :: 0 <= j < |e| && e[j].Notified? ==> j == k)
        && (e[k].payload.status == "completed" <==> Classify(job, o).Finished?)
  {
    var e := TickEffects(job, o);
    var step := Classify(job, o);
    if step.Finished? {
      assert e == [Broadcast(Done), Notified(Notify.SuccessPayload(job.code, job.serverJobId, job.kioskId)),
                   Sleep(SuccessPause), SetFlag(false)];
      assert e[1].Notified?;
    } else {
      var reason := if step.Expired? then "Print Timed Out" else "Print error";
      assert e == [CancelJob(job.lpJobId), Broadcast(PrintFailed),
                   Notified(Notify.FailurePayload(job.code, job.serverJobId, job.kioskId, reason)),
                   Sleep(FailurePause), SetFlag(false)];
      assert e[2].Notified?;
    }
  }

  /**
   * When the clock stepped back and the job's status text shows an error,
   * the pass that ends the loop reports twice: "Job failed immediately",
   * then "Print error".
   */
  lemma VanishedErrorReportsTwice(job: Job, o: Observation)
    requires job.code != "" && Classify(job, o) == Vanished(true)
    ensures var e := TickEffects(job, o);
      && Ends(Classify(job, o))
      && |e| == 9 && e[1].Notified? && e[6].Notified?
      && e[1].payload.message == "Print failed: Job failed immediately"
      && e[6].payload.message == "Print failed: Print error"
  {
  }

  // ---------------------------------------------------------------- the loop itself

  class JobMonitor {
    const job: Job
    const state: State.KioskState
    const outbox: Outbox.NotificationQueue
    const file: Printer.TempFile
    /** Everything the loop has visibly done so far. */
    var log: seq<Effect>

    constructor(job: Job, state: State.KioskState, outbox: Outbox.NotificationQueue, file: Printer.TempFile)
      ensures this.job == job && this.state == state && this.outbox == outbox && this.file == file
      ensures log == []
    {
      this.job := job;
      this.state := state;
      this.outbox := outbox;
      this.file := file;
      log := [];
    }

    /** Broadcast PRINT_FAILED, report the failure when there is a code, cool down, clear the flag. */
    method FailAndSettle(reason: string, reply: HttpReply, timestamp: string, save: Outbox.SaveOutcome)
      modifies this, state, outbox
      ensures log == old(log) + FailureEnding(job, reason)
      ensures outbox.queue == old(outbox.queue) + FailureBacklog(job, reason, reply, timestamp)
      ensures outbox.disk == (if FailureBacklog(job, reason, reply, timestamp) != [] then Outbox.AfterSave(old(outbox.disk), outbox.queue, save) else old(outbox.disk))
      ensures !state.handlingPrintError
    {
      log := log + [Broadcast(PrintFailed)];
      if job.code != "" {
        log := log + [Notified(Notify.FailurePayload(job.code, job.serverJobId, job.kioskId, reason))];
        Notify.NotifyFailed(outbox, job.kioskId, job.code, job.serverJobId, reason, reply, timestamp, save);
      }
      log := log + [Sleep(FailurePause), SetFlag(false)];
      state.SetHandlingPrintError(false);
    }

    /** DONE, the success report when there is a code, the short cool-down, the flag cleared. */
    method SucceedAndSettle(reply: HttpReply, timestamp: string, save: Outbox.SaveOutcome)
      modifies this, state, outbox
      ensures log == old(log) + [Broadcast(Done)] + SuccessNotice(job) + [Sleep(SuccessPause), SetFlag(false)]
      ensures job.code != "" ==> outbox.queue == old(outbox.queue) + Notify.SuccessBacklog(job.kioskId, job.code, job.serverJobId, reply, timestamp)
      ensures job.code == "" ==> outbox.queue == old(outbox.queue)
      ensures outbox.disk == (if job.code != "" && Notify.SuccessQueued(reply) then Outbox.AfterSave(old(outbox.disk), outbox.queue, save) else old(outbox.disk))
      ensures !state.handlingPrintError
    {
      log := log + [Broadcast(Done)];
      if job.code != "" {
        log := log + [Notified(Notify.SuccessPayload(job.code, job.serverJobId, job.kioskId))];
        Notify.NotifySuccess(outbox, job.kioskId, job.code, job.serverJobId, reply, timestamp, save);
      }
      log := log + [Sleep(SuccessPause), SetFlag(false)];
      state.SetHandlingPrintError(false);
    }

    /** The error-text check that closes a pass: cancel and fail, or sleep. */
    method CheckErrorText(out: string, reply: HttpReply, timestamp: string, save: Outbox.SaveOutcome) returns (done: bool)
      modifies this, state, outbox
      ensures done == ErrorText(out)
      ensures log == old(log) + (if done then [CancelJob(job.lpJobId)] + FailureEnding(job, "Print error") else [Sleep(PollPause)])
      ensures outbox.queue == old(outbox.queue) + (if done then FailureBacklog(job, "Print error", reply, timestamp) else [])
      ensures outbox.disk == (if done && FailureBacklog(job, "Print error", reply, timestamp) != [] then Outbox.AfterSave(old(outbox.disk), outbox.queue, save) else old(outbox.disk))
      ensures state.handlingPrintError == (if done then false else old(state.handlingPrintError))
    {
      var output := Lower(out);
      if Contains(output, "error") || Contains(output, "aborted") {
        log := log + [CancelJob(job.lpJobId)];
        FailAndSettle("Print error", reply, timestamp, save);
        done := true;
      } else {
        log := log + [Sleep(PollPause)];
        done := false;
      }
    }

    /** The pass once the job has left the queue with the clock going forward. */
    method JobLeftQueue(obs: Observation) returns (done: bool)
      requires job.lpJobId.Some? && obs.elapsed <= JobTimeout && obs.elapsedAgain >= 0
      requires obs.query.Completed? && (obs.query.returncode != 0 || obs.query.stdout == "")
      modifies this, state, outbox
      ensures done == Ends(Classify(job, obs))
      ensures log == old(log) + TickEffects(job, obs)
      ensures outbox.queue == old(outbox.queue) + TickBacklog(job, obs)
      ensures outbox.disk == TickDisk(job, old(outbox.disk), old(outbox.queue), obs)
      ensures state.handlingPrintError == (if ClearsFlag(Classify(job, obs)) then false else old(state.handlingPrintError))
    {
      match obs.listing
      case Completed(_, listed, _) =>
        if Contains(listed, job.lpJobId.value) {
          assert Classify(job, obs) == (if ErrorText(obs.query.stdout) then Errored else Queued);
          done := CheckErrorText(obs.query.stdout, obs.reply, obs.timestamp, obs.save);
        } else if Health.PrinterConnected(obs.lsusb) {
          assert Classify(job, obs) == Finished;
          SucceedAndSettle(obs.reply, obs.timestamp, obs.save);
          done := true;
        } else if job.code != "" {
          assert Classify(job, obs) == PrinterGoneRaised;
          log := log + [Broadcast(PrintFailed), Sleep(PollPause)];
          done := false;
        } else {
          assert Classify(job, obs) == PrinterGone;
          FailAndSettle("Cups print job completed but printer connection interuppted", obs.reply, obs.timestamp, obs.save);
          done := true;
        }
      case TimedOut =>
        assert Classify(job, obs) == Unobserved;
        log := log + [Sleep(PollPause)];
        done := false;
      case Failed(_) =>
        assert Classify(job, obs) == Unobserved;
        log := log + [Sleep(PollPause)];
        done := false;
    }

    /** The pass whose second clock reading is negative. */
    method VanishedEarly(obs: Observation) returns (done: bool)
      requires job.lpJobId.Some? && obs.elapsed <= JobTimeout && obs.elapsedAgain < 0
      requires obs.query.Completed? && (obs.query.returncode != 0 || obs.query.stdout == "")
      modifies this, state, outbox
      ensures done == Ends(Classify(job, obs))
      ensures log == old(log) + TickEffects(job, obs)
      ensures outbox.queue == old(outbox.queue) + TickBacklog(job, obs)
      ensures outbox.disk == TickDisk(job, old(outbox.disk), old(outbox.queue), obs)
      ensures !state.handlingPrintError
    {
      FailAndSettle("Job failed immediately", obs.reply, obs.timestamp, obs.save);
      done := CheckErrorText(obs.query.stdout, obs.laterReply, obs.laterTimestamp, obs.laterSave);
    }

    /** One pass of the loop in monitor_job. */
    method Tick(obs: Observation) returns (done: bool)
      modifies this, state, outbox
      ensures done == Ends(Classify(job, obs))
      ensures log == old(log) + TickEffects(job, obs)
      ensures outbox.queue == old(outbox.queue) + TickBacklog(job, obs)
      ensures outbox.disk == TickDisk(job, old(outbox.disk), old(outbox.queue), obs)
      ensures state.handlingPrintError == (if ClearsFlag(Classify(job, obs)) then false else old(state.handlingPrintError))
    {
      if obs.elapsed > JobTimeout {
        log := log + [CancelJob(job.lpJobId)];
        FailAndSettle("Print Timed Out", obs.reply, obs.timestamp, obs.save);
        done := true;
      } else if job.lpJobId.None? {
        log := log + [Sleep(PollPause)];
        done := false;
      } else {
        match obs.query
        case Completed(rc, out, _) =>
          if rc != 0 || out == "" {
            if obs.elapsedAgain < 0 {
              done := VanishedEarly(obs);
            } else {
              done := JobLeftQueue(obs);
            }
          } else {
            done := CheckErrorText(out, obs.reply, obs.timestamp, obs.save);
          }
        case TimedOut =>
          log := log + [Sleep(PollPause)];
          done := false;
        case Failed(_) =>
          log := log + [Sleep(PollPause)];
          done := false;
      }
    }

    /** One pass of the loop, seen as the first pass of the remaining run `obs[i..]`. */
    method Advance(obs: seq<Observation>, i: nat) returns (finished: bool)
      requires i < |obs|
      modifies this, state, outbox
      ensures finished == Ends(Classify(job, obs[i]))
      ensures !finished ==> log + RunEffects(job, obs[i + 1..]) == old(log) + RunEffects(job, obs[i..])
      ensures finished ==> log == old(log) + RunEffects(job, obs[i..])
      ensures !finished ==> outbox.queue + RunBacklog(job, obs[i + 1..]) == old(outbox.queue) + RunBacklog(job, obs[i..])
      ensures finished ==> outbox.queue == old(outbox.queue) + RunBacklog(job, obs[i..])
      ensures |outbox.queue| >= |old(outbox.queue)|
      ensures |outbox.queue| == |old(outbox.queue)| ==> outbox.queue == old(outbox.queue) && outbox.disk == old(outbox.disk)
      ensures !finished ==> Finishes(job, obs[i..]) == Finishes(job, obs[i + 1..])
      ensures finished ==> Finishes(job, obs[i..])
      ensures !finished ==> (!state.handlingPrintError || Cleared(job, obs[i + 1..])) == (!old(state.handlingPrintError) || Cleared(job, obs[i..]))
      ensures finished ==> !state.handlingPrintError
    {
      ghost var rest := obs[i..];
      var o := obs[i];
      assert rest[0] == o && rest[1..] == obs[i + 1..];
      RunUnfold(job, rest);
      ghost var ends := Ends(Classify(job, o));
      ghost var laterEffects := if ends then [] else RunEffects(job, obs[i + 1..]);
      ghost var laterBacklog := if ends then [] else RunBacklog(job, obs[i + 1..]);
      ghost var logBefore := log;
      ghost var queueBefore := outbox.queue;
      finished := Tick(o);
      Regroup(logBefore, TickEffects(job, o), laterEffects);
      Regroup(queueBefore, TickBacklog(job, o), laterBacklog);
    }

    /** The `while True` loop of monitor_job over a finite run of passes. */
    method Loop(obs: seq<Observation>) returns (finished: bool)
      modifies this, state, outbox
      ensures finished == Finishes(job, obs)
      ensures log == old(log) + RunEffects(job, obs)
      ensures outbox.queue == old(outbox.queue) + RunBacklog(job, obs)
      ensures outbox.queue == old(outbox.queue) ==> outbox.disk == old(outbox.disk)
      ensures state.handlingPrintError == (old(state.handlingPrintError) && !Cleared(job, obs))
    {
      ghost var log0 := log;
      ghost var queue0 := outbox.queue;
      ghost var disk0 := outbox.disk;
      ghost var flag0 := state.handlingPrintError;
      var i := 0;
      finished := false;
      assert obs[0..] == obs;
      while i < |obs| && !finished
        invariant 0 <= i <= |obs|
        invariant !finished ==> log + RunEffects(job, obs[i..]) == log0 + RunEffects(job, obs)
        invariant finished ==> log == log0 + RunEffects(job, obs)
        invariant !finished ==> outbox.queue + RunBacklog(job, obs[i..]) == queue0 + RunBacklog(job, obs)
        invariant finished ==> outbox.queue == queue0 + RunBacklog(job, obs)
        invariant |outbox.queue| >= |queue0| && (outbox.queue == queue0 ==> outbox.disk == disk0)
        invariant !finished ==> ((!flag0 || Cleared(job, obs)) == (!state.handlingPrintError || Cleared(job, obs[i..])))
        invariant finished ==> ((!flag0 || Cleared(job, obs)) == !state.handlingPrintError)
        invariant !finished ==> Finishes(job, obs) == Finishes(job, obs[i..])
        invariant finished ==> Finishes(job, obs)
      {
        finished := Advance(obs, i);
        i := i + 1;
      }
    }

    /**
     * monitor_job over a finite run of passes: set the flag, loop until a
     * pass ends the job or the passes run out, and delete the temporary
     * file once the loop is left.
     */
    method Run(obs: seq<Observation>) returns (finished: bool)
      modifies this, state, outbox, file
      ensures finished == Finishes(job, obs)
      ensures log == old(log) + [SetFlag(true)] + RunEffects(job, obs)
      ensures outbox.queue == old(outbox.queue) + RunBacklog(job, obs)
      ensures RunBacklog(job, obs) == [] ==> outbox.disk == old(outbox.disk)
      ensures state.handlingPrintError == !Cleared(job, obs)
      ensures file.deleteCalls == old(file.deleteCalls) + (if finished then 1 else 0)
      ensures finished ==> !file.present
      ensures !finished ==> file.present == old(file.present) && file.removals == old(file.removals)
    {
      state.SetHandlingPrintError(true);
      log := log + [SetFlag(true)];
      finished := Loop(obs);
      if finished {
        file.Delete();
      }
    }
  }
}
