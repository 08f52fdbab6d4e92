/**
 * What requests, deliveries and handlers may believe. Every success in flight for a trace is the one
 * accepted completion of that trace, and every request is attached to a trace of its own user and gallery.
 */
module GalleryTruth {
  import opened Keys
  import opened TaskStore
  import opened History
  import opened GalleryMachine
  import opened SchedulerTheorems
  import Sched = SchedulerMachine
  import Lease = LeaseSafety
  import opened GalleryWaiters

  /** The trace was published for this slot. */
  ghost predicate Known(log: seq<Event>, t: string, k: Slot) {
    t in Replay(log).traces && Replay(log).traces[t].slot == k
  }

  /** The trace's accepted completion carried this URL. */
  ghost predicate CompletedAs(log: seq<Event>, t: string, url: string) {
    t in Replay(log).traces && Replay(log).traces[t].phase == Done(Some(url))
  }

  /** Some accepted completion of a task published for this slot carried this URL. */
  ghost predicate Earned(log: seq<Event>, k: Slot, url: string) {
    exists i :: CompletionFor(log, i, k) && log[i].url == url
  }

  // ---- these facts outlive the growth of the log ----

  lemma KnownLater(log: seq<Event>, log': seq<Event>, t: string)
    requires log <= log' && Lawful(log') && t in Replay(log).traces
    ensures t in Replay(log').traces && Replay(log').traces[t].slot == Replay(log).traces[t].slot
    ensures Replay(log).traces[t].phase.Done? ==> Replay(log').traces[t] == Replay(log).traces[t]
  {
    assert log'[..|log|] == log && log'[..|log'|] == log';
    TracePersists(log', t, |log|, |log'|);
  }

  lemma EarnedLater(log: seq<Event>, log': seq<Event>, k: Slot, url: string)
    requires log <= log' && Lawful(log') && Earned(log, k, url)
    ensures Earned(log', k, url)
  {
    var i :| CompletionFor(log, i, k) && log[i].url == url;
    assert log'[..|log|] == log;
    CompletionForPrefix(log', |log|, i, k);
    assert CompletionFor(log', i, k) && log'[i].url == url;
  }

  lemma {:induction false} CompletedAsEvent(log: seq<Event>, t: string, url: string) returns (i: nat)
    requires Lawful(log) && CompletedAs(log, t, url)
    ensures i < |log| && log[i].TaskCompleted? && log[i].trace == t && log[i].url == url
  {
    var n := |log| - 1;
    LawfulPrefix(log, n);
    assert Allowed(Replay(log[..n]), log[n]);
    if log[n].trace == t {
      i := n;
    } else {
      i := CompletedAsEvent(log[..n], t, url);
    }
  }

  lemma CompletedIsEarned(log: seq<Event>, t: string, k: Slot, url: string)
    requires Lawful(log) && CompletedAs(log, t, url) && Known(log, t, k)
    ensures Earned(log, k, url)
  {
    var i := CompletedAsEvent(log, t, url);
    CreatedForItsSlot(log, t, k);
    assert CompletionFor(log, i, k) && log[i].url == url;
  }

  // ---- the invariant ----

  ghost predicate ReplyTrue(log: seq<Event>, t: string, reply: Reply) {
    reply.DoneReply? ==> CompletedAs(log, t, reply.url)
  }

  ghost predicate ResultTrue(log: seq<Event>, t: string, result: TaskResult) {
    result.success ==> CompletedAs(log, t, result.url)
  }

  predicate Attached(r: Request) {
    !r.pc.Publishing? && !r.pc.Unpublished? && !r.pc.Hit?
  }

  /** Where a request can be without a task of its own. */
  predicate NeedsNoTask(pc: Pc) {
    pc.Publishing? || pc.Unpublished? || pc.Hit? || pc.Registering? || pc.Awaiting? || pc.Leaving? || pc.Gone?
  }

  ghost predicate IdentityTrue(log: seq<Event>, rid: string, r: Request) {
    && (r.pc.Publishing? ==> rid !in Replay(log).traces && !r.created && r.inbox.None?)
    && (r.created ==> r.trace == rid && Attached(r))
    && (Attached(r) ==> Known(log, r.trace, SlotOf(r)))
    && (r.pc.Refunding? ==> !r.pc.reply.DoneReply?)
    && (!r.created ==> NeedsNoTask(r.pc))
  }

  ghost predicate BeliefTrue(log: seq<Event>, r: Request) {
    && (Attached(r) && r.inbox.Some? ==> ResultTrue(log, r.trace, r.inbox.value))
    && (r.pc.Hit? ==> Earned(log, SlotOf(r), r.pc.url))
    && (r.pc.Settling? ==> r.pc.result.success && CompletedAs(log, r.trace, r.pc.result.url))
    && (r.pc.Refunding? || r.pc.Leaving? || r.pc.Gone? ==> ReplyTrue(log, r.trace, r.pc.reply))
  }

  ghost predicate RequestTrue(log: seq<Event>, rid: string, r: Request) {
    IdentityTrue(log, rid, r) && BeliefTrue(log, r)
  }

  ghost predicate HandlerTrue(log: seq<Event>, h: Handler) {
    match h
    case Completing(_, _, result) => result.success
    case Failing(_, _, result) => !result.success
    case Reporting(t, result) => ResultTrue(log, t, result)
  }

  ghost predicate BornAreRequests(log: seq<Event>, requests: map<string, Request>) {
    forall t :: t in Replay(log).traces ==> t in requests && requests[t].created
  }

  ghost predicate DeliveryTrue(log: seq<Event>, d: Delivery) {
    ResultTrue(log, d.trace, d.result)
  }

  /** Everything the server's goroutines believe is borne out by this log. */
  ghost predicate TrueOf(log: seq<Event>, w: World) {
    && (forall rid :: rid in w.requests ==> RequestTrue(log, rid, w.requests[rid]))
    && (forall hid :: hid in w.handlers ==> HandlerTrue(log, w.handlers[hid]))
    && (forall did :: did in w.deliveries ==> DeliveryTrue(log, w.deliveries[did]))
    && BornAreRequests(log, w.requests)
  }

  ghost predicate Truthful(w: World) {
    TrueOf(w.sched.log, w)
  }

  // ---- the log grows ----

  /** More history, with no new trace. */
  ghost predicate Continues(log: seq<Event>, log': seq<Event>) {
    log <= log' && Lawful(log') && Replay(log').traces.Keys == Replay(log).traces.Keys
  }

  lemma ResultLater(log: seq<Event>, log': seq<Event>, t: string, result: TaskResult)
    requires log <= log' && Lawful(log') && ResultTrue(log, t, result)
    ensures ResultTrue(log', t, result)
  {
    if result.success { KnownLater(log, log', t); }
  }

  lemma IdentityLater(log: seq<Event>, log': seq<Event>, rid: string, r: Request)
    requires log <= log' && Lawful(log') && IdentityTrue(log, rid, r)
    requires rid in Replay(log').traces ==> rid in Replay(log).traces
    ensures IdentityTrue(log', rid, r)
  {
    if Attached(r) { KnownLater(log, log', r.trace); }
  }

  lemma BeliefLater(log: seq<Event>, log': seq<Event>, r: Request)
    requires log <= log' && Lawful(log') && BeliefTrue(log, r)
    ensures BeliefTrue(log', r)
  {
    if Attached(r) && r.inbox.Some? { ResultLater(log, log', r.trace, r.inbox.value); }
    if r.pc.Settling? { KnownLater(log, log', r.trace); }
    if r.pc.Hit? { EarnedLater(log, log', SlotOf(r), r.pc.url); }
    if (r.pc.Refunding? || r.pc.Leaving? || r.pc.Gone?) && r.pc.reply.DoneReply? {
      KnownLater(log, log', r.trace);
    }
  }

  lemma RequestLater(log: seq<Event>, log': seq<Event>, rid: string, r: Request)
    requires log <= log' && Lawful(log') && RequestTrue(log, rid, r)
    requires rid in Replay(log').traces ==> rid in Replay(log).traces
    ensures RequestTrue(log', rid, r)
  {
    IdentityLater(log, log', rid, r);
    BeliefLater(log, log', r);
  }

  lemma TrueLater(log: seq<Event>, log': seq<Event>, w: World)
    requires TrueOf(log, w) && Continues(log, log')
    ensures TrueOf(log', w)
  {
    forall rid | rid in w.requests ensures RequestTrue(log', rid, w.requests[rid]) {
      RequestLater(log, log', rid, w.requests[rid]);
    }
    forall hid | hid in w.handlers ensures HandlerTrue(log', w.handlers[hid]) {
      if w.handlers[hid].Reporting? { ResultLater(log, log', w.handlers[hid].trace, w.handlers[hid].result); }
    }
    forall did | did in w.deliveries ensures DeliveryTrue(log', w.deliveries[did]) {
      ResultLater(log, log', w.deliveries[did].trace, w.deliveries[did].result);
    }
  }

  // ---- one request changes ----

  lemma OneRequestTrue(log: seq<Event>, w: World, w': World, rid: string, r: Request)
    requires TrueOf(log, w) && w'.requests == w.requests[rid := r] && RequestTrue(log, rid, r)
    requires rid in w.requests && w.requests[rid].created ==> r.created
    requires w'.handlers == w.handlers && w'.deliveries == w.deliveries
    ensures TrueOf(log, w')
  {
  }

  /** What a request believes after any move but Publish follows from what it believed before. */
  lemma MovedIsTrue(log: seq<Event>, w: World, rid: string, move: Move)
    requires Lawful(log) && Enabled(w, rid, move) && !move.Publish?
    requires RequestTrue(log, rid, w.requests[rid])
    ensures RequestTrue(log, rid, Moved(w, rid, move)) && Moved(w, rid, move).created == w.requests[rid].created
  {
  }

  lemma ServedIsTrue(log: seq<Event>, rid: string, r: Request, result: TaskResult)
    requires RequestTrue(log, rid, r) && ResultTrue(log, r.trace, result) && Attached(r)
    ensures RequestTrue(log, rid, r.(inbox := Some(result), heard := r.heard + 1))
  {
  }

  // ---- the scheduler's part ----

  lemma RecordKeepsTraces(h: Summary, e: Event)
    requires !e.TaskCreated?
    ensures Record(h, e).traces.Keys == h.traces.Keys
  {
  }

  lemma WatchdogBearsNothing(c: Config, m: Sched.Machine)
    ensures Replay(Sched.WatchdogStep(c, m).log).traces.Keys == Replay(m.log).traces.Keys
  {
    if m.dog.Reclaiming? && StatusIs(m.store, m.dog.trace, Processing) {
      ReplayAppend(m.log, TaskReclaimed(m.dog.trace));
      RecordKeepsTraces(Replay(m.log), TaskReclaimed(m.dog.trace));
    }
  }

  lemma {:induction false} RunToIdleBearsNothing(c: Config, m: Sched.Machine)
    ensures Replay(Sched.RunToIdle(c, m).log).traces.Keys == Replay(m.log).traces.Keys
    decreases Sched.Remaining(m.dog)
  {
    if !m.dog.Idle? {
      Lease.WatchdogProgress(c, m);
      WatchdogBearsNothing(c, m);
      RunToIdleBearsNothing(c, Sched.WatchdogStep(c, m));
    }
  }

  lemma ScriptBearsNothing(c: Config, m: Sched.Machine, s: Sched.Step)
    requires !s.DoPublish? && !s.DoPass? && !s.DoWatchdog?
    ensures var log' := Sched.Next(c, m, s).log;
      log' == m.log || (log' != [] && log' == m.log + [log'[|log'| - 1]] && !log'[|log'| - 1].TaskCreated?)
  {
  }

  /** Only publishing brings a new trace into the world. */
  lemma OnlyPublishBears(c: Config, m: Sched.Machine, s: Sched.Step)
    requires !s.DoPublish?
    ensures Replay(Sched.Next(c, m, s).log).traces.Keys == Replay(m.log).traces.Keys
  {
    if s.DoWatchdog? {
      WatchdogBearsNothing(c, m);
    } else if s.DoPass? {
      if m.dog.Idle? {
        WatchdogBearsNothing(c, m);
        RunToIdleBearsNothing(c, Sched.WatchdogStep(c, m));
      }
    } else {
      ScriptBearsNothing(c, m, s);
      var log' := Sched.Next(c, m, s).log;
      if log' != m.log {
        ReplayAppend(m.log, log'[|log'| - 1]);
        RecordKeepsTraces(Replay(m.log), log'[|log'| - 1]);
      }
    }
  }

  ghost predicate Publishes(w: World, s: Step) {
    ScriptOf(w, s).Some? && ScriptOf(w, s).value.DoPublish?
  }

  lemma SchedStaysSafe(c: Config, w: World, s: Step)
    requires Lease.Safe(c, w.sched)
    ensures Lease.Safe(c, Next(c, w, s).sched) && w.sched.log <= Next(c, w, s).sched.log
    ensures !Publishes(w, s) ==> Continues(w.sched.log, Next(c, w, s).sched.log)
  {
    var script := ScriptOf(w, s);
    if script.Some? {
      Lease.NextKeepsSafe(c, w.sched, script.value);
      NextGrowsLog(c, w.sched, script.value);
      if !script.value.DoPublish? { OnlyPublishBears(c, w.sched, script.value); }
    }
  }

  // ---- publishing ----

  /** A cached URL is the latest completion's: it was earned. */
  lemma CachedIsEarned(c: Config, m: Sched.Machine, k: Slot)
    requires Lease.Safe(c, m) && k in m.store.cache
    ensures Earned(m.log, k, m.store.cache[k].url)
  {
    LatestIsLatest(m.log, k);
    assert Lease.CacheLookup(m.store, k) == Lease.CacheFromHistory(c, Replay(m.log), m.store.now, k);
    var i :| LatestFor(m.log, i, k) && Replay(m.log).latest[k] == Completion(m.log[i].url, m.log[i].at);
    assert CompletionFor(m.log, i, k) && m.log[i].url == m.store.cache[k].url;
  }

  lemma AnsweredIsTrue(c: Config, w: World, rid: string)
    requires Lease.Safe(c, w.sched) && Truthful(w) && Enabled(w, rid, Move.Publish)
    requires !Publishes(w, Act(rid, Move.Publish))
    ensures RequestTrue(w.sched.log, rid, Moved(w, rid, Move.Publish))
  {
    var r := w.requests[rid];
    assert RequestTrue(w.sched.log, rid, r);
    match PublishReplyFor(w.sched.store, rid, SlotOf(r), r.force)
    case Cached(url) => CachedIsEarned(c, w.sched, SlotOf(r));
    case Collapsed(t) =>
    case Created(_) =>
  }

  lemma CreatedIsTrue(c: Config, w: World, w': World, rid: string)
    requires Lease.Safe(c, w.sched) && Truthful(w) && Enabled(w, rid, Move.Publish)
    requires Publishes(w, Act(rid, Move.Publish)) && w' == Next(c, w, Act(rid, Move.Publish))
    requires Lawful(w'.sched.log)
    ensures Truthful(w')
  {
    var log, log', r := w.sched.log, w'.sched.log, w.requests[rid];
    assert RequestTrue(log, rid, r);
    assert log' == log + [TaskCreated(rid, SlotOf(r))];
    ReplayAppend(log, TaskCreated(rid, SlotOf(r)));
    forall q | q in w'.requests ensures RequestTrue(log', q, w'.requests[q]) {
      if q != rid { RequestLater(log, log', q, w.requests[q]); }
    }
    forall hid | hid in w'.handlers ensures HandlerTrue(log', w'.handlers[hid]) {
      if w.handlers[hid].Reporting? { ResultLater(log, log', w.handlers[hid].trace, w.handlers[hid].result); }
    }
    forall did | did in w'.deliveries ensures DeliveryTrue(log', w'.deliveries[did]) {
      ResultLater(log, log', w.deliveries[did].trace, w.deliveries[did].result);
    }
  }

  // ---- every step ----

  lemma NotifyIsTrue(log: seq<Event>, w: World, t: string, result: TaskResult, did: nat)
    requires TrueOf(log, w) && ResultTrue(log, t, result)
    ensures TrueOf(log, Notify(w, t, result, did))
  {
  }

  lemma AdvanceIsTrue(log: seq<Event>, w: World, rid: string, move: Move)
    requires Lawful(log) && TrueOf(log, w) && Enabled(w, rid, move)
    requires RequestTrue(log, rid, Moved(w, rid, move))
    requires w.requests[rid].created ==> Moved(w, rid, move).created
    ensures TrueOf(log, Advance(w, rid, move))
  {
    var r' := Moved(w, rid, move);
    var w1 := w.(requests := w.requests[rid := r'], books := Paid(w, rid, move));
    OneRequestTrue(log, w, w1, rid, r');
    if move.NotifyRejected? {
      NotifyIsTrue(log, w1, w.requests[rid].trace, Failure, move.did);
    } else {
      OneRequestTrue(log, w, Advance(w, rid, move), rid, r');
    }
  }

  lemma OneDeliveryTrue(log: seq<Event>, w: World, w': World, did: nat, d: Delivery)
    requires TrueOf(log, w) && w' == w.(deliveries := w.deliveries[did := d]) && DeliveryTrue(log, d)
    ensures TrueOf(log, w')
  {
  }

  lemma SendIsTrue(log: seq<Event>, w: World, rid: string, result: TaskResult)
    requires TrueOf(log, w) && rid in w.requests && Attached(w.requests[rid])
    requires ResultTrue(log, w.requests[rid].trace, result)
    ensures TrueOf(log, Send(w, rid, result))
  {
    var r := w.requests[rid];
    if r.inbox.None? {
      ServedIsTrue(log, rid, r, result);
      OneRequestTrue(log, w, Send(w, rid, result), rid, r.(inbox := Some(result), heard := r.heard + 1));
    }
  }

  lemma DeliverIsTrue(log: seq<Event>, w: World, did: nat)
    requires TrueOf(log, w) && Wired(w) && did in w.deliveries
    ensures TrueOf(log, DeliverStep(w, did))
  {
    var d := w.deliveries[did];
    assert DeliveryTrue(log, d);
    if d.chs != [] {
      assert CarriedBy(w, d.chs[0], did);
      var d' := d.(chs := d.chs[1..]);
      var w1 := w.(deliveries := w.deliveries[did := d']);
      OneDeliveryTrue(log, w, w1, did, d');
      SendIsTrue(log, w1, d.chs[0], d.result);
    }
  }

  /** An accepted completion is on the log. */
  lemma CompletedNow(c: Config, m: Sched.Machine, t: string, node: string, url: string)
    requires Lease.Safe(c, m) && CompleteReplyFor(m.store, t, node) == CompleteOk
    ensures CompletedAs(Sched.Next(c, m, Sched.DoComplete(t, node, url)).log, t, url)
  {
    ReplayAppend(m.log, TaskCompleted(t, node, url, m.store.now));
  }

  lemma HandlerStepIsTrue(c: Config, w: World, s: Step, log: seq<Event>)
    requires Lease.Safe(c, w.sched) && TrueOf(log, w) && log == Next(c, w, s).sched.log
    requires s.Report? || s.HandlerComplete? || s.HandlerFail?
    ensures TrueOf(log, Locally(w, s))
  {
    if s.HandlerComplete? && s.hid in w.handlers && w.handlers[s.hid].Completing? {
      var h := w.handlers[s.hid];
      assert HandlerTrue(log, h);
      if CompleteReplyFor(w.sched.store, h.trace, h.node) == CompleteOk {
        CompletedNow(c, w.sched, h.trace, h.node, h.result.url);
      }
      assert HandlerTrue(log, AfterComplete(w.sched.store, h));
    } else if s.HandlerFail? && s.hid in w.handlers {
      assert HandlerTrue(log, w.handlers[s.hid]);
    }
  }

  lemma HandlerNotifyIsTrue(log: seq<Event>, w: World, hid: nat, did: nat)
    requires TrueOf(log, w)
    ensures TrueOf(log, Locally(w, HandlerNotify(hid, did)))
  {
    if hid in w.handlers && w.handlers[hid].Reporting? && did !in w.deliveries {
      assert HandlerTrue(log, w.handlers[hid]);
      NotifyIsTrue(log, w.(handlers := w.handlers - {hid}), w.handlers[hid].trace, w.handlers[hid].result, did);
    }
  }

  lemma ArrivalIsTrue(w: World, s: Step)
    requires Truthful(w) && s.Arrive?
    ensures TrueOf(w.sched.log, Locally(w, s))
  {
    if MayArrive(w, s.rid) {
      OneRequestTrue(w.sched.log, w, Locally(w, s), s.rid, Locally(w, s).requests[s.rid]);
    }
  }

  lemma MoveStaysTrue(c: Config, w: World, rid: string, move: Move, log: seq<Event>)
    requires Lease.Safe(c, w.sched) && Truthful(w) && TrueOf(log, w) && Lawful(log) && Enabled(w, rid, move)
    requires !Publishes(w, Act(rid, move)) && (move.Publish? ==> log == w.sched.log)
    ensures TrueOf(log, Advance(w, rid, move))
  {
    if move.Publish? {
      AnsweredIsTrue(c, w, rid);
    } else {
      assert RequestTrue(log, rid, w.requests[rid]);
      MovedIsTrue(log, w, rid, move);
    }
    assert w.requests[rid].created ==> Moved(w, rid, move).created;
    AdvanceIsTrue(log, w, rid, move);
  }

  predicate Believes(s: Step) {
    !s.NodeFetch? && !s.MakeDeposit? && !s.System?
  }

  lemma OthersBelieveNothing(log: seq<Event>, w: World, s: Step)
    requires TrueOf(log, w) && !Believes(s)
    ensures TrueOf(log, Locally(w, s))
  {
  }

  lemma LocallyTrue(c: Config, w: World, s: Step, log: seq<Event>)
    requires Lease.Safe(c, w.sched) && Wired(w) && Truthful(w) && TrueOf(log, w) && Lawful(log)
    requires !Publishes(w, s) && log == Next(c, w, s).sched.log
    ensures TrueOf(log, Locally(w, s))
  {
    if s.Arrive? {
      ArrivalIsTrue(w, s);
    } else if s.Act? {
      if Enabled(w, s.rid, s.move) { MoveStaysTrue(c, w, s.rid, s.move, log); }
    } else if s.Deliver? {
      if s.did in w.deliveries { DeliverIsTrue(log, w, s.did); }
    } else if s.HandlerNotify? {
      HandlerNotifyIsTrue(log, w, s.hid, s.did);
    } else if !Believes(s) {
      OthersBelieveNothing(log, w, s);
    } else {
      HandlerStepIsTrue(c, w, s, log);
    }
  }

  ghost predicate Sound(c: Config, w: World) {
    Lease.Safe(c, w.sched) && Wired(w) && Truthful(w)
  }

  lemma SchedulerAside(log: seq<Event>, w: World, m: Sched.Machine)
    requires TrueOf(log, w) && m.log == log
    ensures Truthful(w.(sched := m))
  {
  }

  lemma OnlyPublishPublishes(w: World, s: Step)
    requires Publishes(w, s)
    ensures s.Act? && s == Act(s.rid, Move.Publish) && Enabled(w, s.rid, Move.Publish)
  {
  }

  lemma NextKeepsTruthful(c: Config, w: World, s: Step)
    requires Sound(c, w)
    ensures Truthful(Next(c, w, s))
  {
    SchedStaysSafe(c, w, s);
    if Publishes(w, s) {
      OnlyPublishPublishes(w, s);
      CreatedIsTrue(c, w, Next(c, w, s), s.rid);
    } else {
      var m' := Next(c, w, s).sched;
      TrueLater(w.sched.log, m'.log, w);
      LocallyTrue(c, w, s, m'.log);
      SchedulerAside(m'.log, Locally(w, s), m');
    }
  }

  lemma NextKeepsSound(c: Config, w: World, s: Step)
    requires Sound(c, w)
    ensures Sound(c, Next(c, w, s))
  {
    NextKeepsWired(c, w, s);
    SchedStaysSafe(c, w, s);
    NextKeepsTruthful(c, w, s);
  }

  lemma StartIsSound(c: Config)
    ensures Sound(c, Start)
  {
    StartIsWired();
    Lease.StartIsSafe(c);
  }
}
