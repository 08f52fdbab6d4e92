/**
 * Where failures and rejections on the log come from. A runtime failure is a node's report passed on by a
 * handler; a rejection is the creator's own, after a failed setup. So setup failures never count as runtime
 * failures, and one that reaches Redis while the task waits removes it.
 */
module GalleryFailures {
  import opened TaskStore
  import opened History
  import opened GalleryMachine
  import opened GalleryTruth
  import opened GalleryMoney
  import opened SchedulerTheorems
  import Sched = SchedulerMachine
  import Lease = LeaseSafety

  /** What a step that logs this failure must be. */
  predicate Causes(w: World, s: Step, e: Event)
    requires e.TaskFailed?
  {
    match e.mode
    case Reject => s == Act(e.trace, Move.Reject(true)) && Enabled(w, e.trace, s.move) && e.node == ""
    case Fail =>
      s.HandlerFail? && s.hid in w.handlers && w.handlers[s.hid].Failing?
      && w.handlers[s.hid].trace == e.trace && w.handlers[s.hid].node == e.node
  }

  lemma WatchdogFailsNothing(c: Config, m: Sched.Machine)
    ensures NoNewFailure(m.log, Sched.WatchdogStep(c, m).log)
  {
  }

  ghost predicate NoNewFailure(log: seq<Event>, log': seq<Event>) {
    log <= log' && forall j :: |log| <= j < |log'| ==> !log'[j].TaskFailed?
  }

  lemma {:induction false} RunToIdleFailsNothing(c: Config, m: Sched.Machine)
    ensures NoNewFailure(m.log, Sched.RunToIdle(c, m).log)
    decreases Sched.Remaining(m.dog)
  {
    if !m.dog.Idle? {
      var m1 := Sched.WatchdogStep(c, m);
      WatchdogFailsNothing(c, m);
      Lease.WatchdogProgress(c, m);
      RunToIdleFailsNothing(c, m1);
      forall j | |m.log| <= j < |Sched.RunToIdle(c, m1).log| ensures !Sched.RunToIdle(c, m1).log[j].TaskFailed? {
        if j < |m1.log| { assert Sched.RunToIdle(c, m1).log[j] == m1.log[j]; }
      }
    }
  }

  lemma OtherScriptsFailNothing(c: Config, m: Sched.Machine, s: Sched.Step)
    requires !s.DoFail?
    ensures NoNewFailure(m.log, Sched.Next(c, m, s).log)
  {
    if s.DoPass? {
      if m.dog.Idle? { RunToIdleFailsNothing(c, Sched.WatchdogStep(c, m)); }
    } else if s.DoWatchdog? {
      WatchdogFailsNothing(c, m);
    }
  }

  /** The fail script is run by a handler or by a creator that gives up, on their own traces. */
  lemma FailScriptsAreCaused(c: Config, w: World, s: Step)
    requires Right(c, w) && ScriptOf(w, s).Some? && ScriptOf(w, s).value.DoFail?
    ensures var f := ScriptOf(w, s).value; Causes(w, s, TaskFailed(f.trace, f.node, f.mode))
  {
    if s.Act? { RejecterIsCreator(c, w, s.rid); }
  }

  lemma FailScriptLogs(c: Config, m: Sched.Machine, f: Sched.Step, j: nat)
    requires f.DoFail? && |m.log| <= j < |Sched.Next(c, m, f).log|
    ensures Sched.Next(c, m, f).log[j] == TaskFailed(f.trace, f.node, f.mode)
  {
  }

  /** Each failure that a step logs is of that step's making. */
  lemma NextCauses(c: Config, w: World, s: Step, log': seq<Event>, j: nat)
    requires Right(c, w) && log' == SchedAfter(c, w.sched, ScriptOf(w, s)).log
    requires |w.sched.log| <= j < |log'| && log'[j].TaskFailed?
    ensures Causes(w, s, log'[j])
  {
    var script := ScriptOf(w, s);
    if script.value.DoFail? {
      FailScriptsAreCaused(c, w, s);
      FailScriptLogs(c, w.sched, script.value, j);
    } else {
      OtherScriptsFailNothing(c, w.sched, script.value);
    }
  }

  ghost predicate CausedWithin(r: Run, n: nat, e: Event)
    requires n <= |r.steps| && |r.states| == |r.steps| + 1 && e.TaskFailed?
  {
    exists i :: 0 <= i < n && CausedAt(r, i, e)
  }

  ghost predicate CausedAt(r: Run, i: nat, e: Event)
    requires i < |r.steps| && |r.states| == |r.steps| + 1 && e.TaskFailed?
  {
    Causes(r.states[i], r.steps[i], e)
  }

  /**
   * In every run, every runtime failure on the log is the failing step of a handler that was given a report of
   * that trace from that node, and every rejection is the creator's of that trace, giving up its setup.
   */
  lemma {:induction false} FailuresAreCaused(c: Config, r: Run, n: nat, j: nat)
    requires IsRun(c, r) && n < |r.states| && j < |r.states[n].sched.log| && r.states[n].sched.log[j].TaskFailed?
    ensures CausedWithin(r, n, r.states[n].sched.log[j])
    decreases n
  {
    if n > 0 {
      StepCauses(c, r, n, j);
      if j < |r.states[n - 1].sched.log| {
        FailuresAreCaused(c, r, n - 1, j);
        CausedLater(r, n, r.states[n].sched.log[j]);
      }
    }
  }

  lemma CausedLater(r: Run, n: nat, e: Event)
    requires 0 < n <= |r.steps| && |r.states| == |r.steps| + 1 && e.TaskFailed? && CausedWithin(r, n - 1, e)
    ensures CausedWithin(r, n, e)
  {
    var i :| 0 <= i < n - 1 && CausedAt(r, i, e);
  }

  /** An entry of the log was there before the step, or is of its making. */
  lemma WorldCauses(c: Config, w: World, s: Step, w': World, j: nat)
    requires Right(c, w) && w' == Next(c, w, s) && j < |w'.sched.log| && w'.sched.log[j].TaskFailed?
    ensures if j < |w.sched.log| then w'.sched.log[j] == w.sched.log[j] else Causes(w, s, w'.sched.log[j])
  {
    SchedStaysSafe(c, w, s);
    if j >= |w.sched.log| { NextCauses(c, w, s, w'.sched.log, j); }
  }

  lemma StepCauses(c: Config, r: Run, n: nat, j: nat)
    requires IsRun(c, r) && 0 < n < |r.states| && j < |r.states[n].sched.log| && r.states[n].sched.log[j].TaskFailed?
    ensures var log, log' := r.states[n - 1].sched.log, r.states[n].sched.log;
      if j < |log| then log'[j] == log[j] else CausedAt(r, n - 1, log'[j])
  {
    var w, w' := r.states[n - 1], r.states[n];
    RunsAreRight(c, r, n - 1);
    assert StepAt(c, r, n - 1);
    WorldCauses(c, w, r.steps[n - 1], w', j);
  }

  /** A creator that gives up its setup and reaches Redis removes its task if that still waits to be claimed. */
  lemma GivingUpRemovesTheTask(c: Config, r: Run, rid: string)
    requires IsRun(c, r) && Enabled(r.Last(), rid, Move.Reject(true))
    requires StatusIs(r.Last().sched.store, rid, Pending)
    ensures var w, w' := r.Last(), Next(c, r.Last(), Act(rid, Move.Reject(true)));
      && rid !in w'.sched.store.tasks && rid !in w'.sched.store.queue
      && w'.sched.log == w.sched.log + [TaskFailed(rid, "", FailMode.Reject)]
  {
    RunsAreRight(c, r, |r.steps|);
    GivingUpIsOwn(c, r.Last(), rid);
    RejectRemoves(r.Last().sched, rid);
  }

  lemma GivingUpIsOwn(c: Config, w: World, rid: string)
    requires Right(c, w) && Enabled(w, rid, Move.Reject(true))
    ensures Next(c, w, Act(rid, Move.Reject(true))).sched == Sched.FailStep(w.sched, rid, "", FailMode.Reject)
  {
    RejecterIsCreator(c, w, rid);
    assert ScriptOf(w, Act(rid, Move.Reject(true))) == Some(Sched.DoFail(rid, "", FailMode.Reject));
  }

  lemma RejecterIsCreator(c: Config, w: World, rid: string)
    requires Right(c, w) && rid in w.requests && w.requests[rid].pc.Rejecting?
    ensures w.requests[rid].trace == rid
  {
    RightSees(c, w, rid);
  }

  lemma RejectRemoves(m: Sched.Machine, t: string)
    requires StatusIs(m.store, t, Pending)
    ensures var m' := Sched.FailStep(m, t, "", FailMode.Reject);
      && t !in m'.store.tasks && t !in m'.store.queue
      && m'.log == m.log + [TaskFailed(t, "", FailMode.Reject)]
  {
    assert t !in multiset(Sched.FailStep(m, t, "", FailMode.Reject).store.queue);
  }
}
