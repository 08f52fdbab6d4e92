/**
 * service/gallery.go and the task half of ws/hub.go as imperative code over the Redis scheduler, the
 * balance service and the waiter map. Each atomic section is one step of the server machine, so the life
 * of a Server object is one of its runs and every theorem about runs holds of it.
 */
module GalleryService {
  import opened Keys
  import opened TaskStore
  import opened Ledger
  import opened GalleryMachine
  import Sched = SchedulerMachine
  import Money = GalleryMoney
  import Truth = GalleryTruth
  import Redis = RedisScheduler
  import Balance = BalanceService
  import Lease = LeaseSafety
  import Scan = WatchdogPass
  import Offers = GalleryOffers

  /** The later run is the earlier one and these steps more; being runs, the steps determine the states. */
  ghost predicate Extends(r: Run, r': Run, steps: seq<Step>) {
    && r'.steps == r.steps + steps
    && |r'.states| == |r.states| + |steps|
    && r'.states[..|r.states|] == r.states
  }

  lemma ExtendsMore(r0: Run, r1: Run, r2: Run, a: seq<Step>, b: seq<Step>)
    requires Extends(r0, r1, a) && Extends(r1, r2, b)
    ensures Extends(r0, r2, a + b)
  {
    assert r2.states[..|r0.states|] == r2.states[..|r1.states|][..|r0.states|];
    assert r0.steps + a + b == r0.steps + (a + b);
  }

  /** Only channels were touched. */
  ghost predicate OnlyInboxes(before: map<string, Request>, after: map<string, Request>) {
    forall rid | rid in before ::
      rid in after && after[rid] == before[rid].(inbox := after[rid].inbox, heard := after[rid].heard)
  }

  function Sends(did: nat, n: nat): seq<Step> {
    if n == 0 then [] else Sends(did, n - 1) + [Step.Deliver(did)]
  }

  /** What Redis, the network, the database and the hub answer one request, in the order it asks them. */
  datatype Answers = Answers(publishes: bool, quota: Option<Quota>, freezes: bool, records: bool, reached: nat,
                             rejects: bool, refunds: bool)

  /** A resolved quota is at least 1 GP. */
  predicate Plausible(a: Answers) {
    a.quota.Some? ==> 1 <= a.quota.value.gp
  }

  function TellSteps(t: string, did: nat, n: nat): seq<Step> {
    [Act(t, Move.NotifyRejected(did))] + Sends(did, n)
  }

  function AbandonSteps(t: string, a: Answers, did: nat, n: nat): seq<Step> {
    [Act(t, Move.Reject(a.rejects))] + TellSteps(t, did, n) + [Act(t, Repay(a.refunds))]
  }

  function LeaveSteps(t: string, a: Answers, did: nat, n: nat): seq<Step> {
    AbandonSteps(t, a, did, n) + [Act(t, Move.Unregister)]
  }

  datatype Outcome =
    | PublishFailed
    | FromCache(url: string)
    | SetupFailed
    | Waiting(trace: string, created: bool, estimatedGP: int)

  /** What ends the wait. */
  datatype Event = GotResult | TimedOut | Cancelled

  function Woken(event: Event): Move {
    match event
    case GotResult => Move.Receive
    case TimedOut => Move.Timeout
    case Cancelled => Move.Cancel
  }

  /** Only created tasks have anything frozen; a success is charged, anything else is refunded. */
  function ReleaseSteps(ch: string, created: bool, estimatedGP: int, success: bool, commits: bool): seq<Step> {
    if !created then []
    else if success then [Act(ch, Move.Settle(commits))]
    else if estimatedGP == 0 then []
    else [Act(ch, RefundEstimate(commits))]
  }

  function ReplyTo(created: bool, estimatedGP: int, result: TaskResult): Reply {
    if !result.success then ErrorReply else DoneReply(if created then estimatedGP else 0, result.url)
  }

  function FinaliseSteps(hid: nat, success: bool, ok: bool): seq<Step> {
    (if success then [HandlerComplete(hid)] else []) + (if ok then [] else [HandlerFail(hid)])
  }

  function HandlingSteps(hid: nat, did: nat, t: string, node: string, result: TaskResult, ok: bool, n: nat): seq<Step> {
    [Report(hid, t, node, result)] + FinaliseSteps(hid, Normalised(result).success, ok)
    + [HandlerNotify(hid, did)] + Sends(did, n)
  }

  /** The resolved cost of a gallery: GP, and whether it is in the free tier. */
  datatype Quota = Quota(gp: int, isNew: bool)

  function Amount(quota: Option<Quota>): Option<int> {
    if quota.Some? then Some(quota.value.gp) else None
  }

  /** How setupCreatedTask ends. */
  function SetupOutcome(a: Answers, funded: bool): Option<SetupError> {
    if a.quota.None? then Some(Unresolved) else PayOutcome(a, funded)
  }

  function PayOutcome(a: Answers, funded: bool): Option<SetupError> {
    if !a.freezes then Some(FreezeFailed) else if !funded then Some(Insufficient) else AnnounceOutcome(a)
  }

  function AnnounceOutcome(a: Answers): Option<SetupError> {
    if !a.records then Some(CostFailed) else if a.reached == 0 then Some(NoNodes) else None
  }

  function SetupSteps(t: string, a: Answers, funded: bool): seq<Step> {
    [Act(t, Move.Resolve(Amount(a.quota)))] + if a.quota.None? then [] else PaySteps(t, a, a.quota.value, funded)
  }

  function PaySteps(t: string, a: Answers, quota: Quota, funded: bool): seq<Step> {
    [Act(t, FreezeEstimate(a.freezes))] + if a.freezes && funded then AnnounceSteps(t, a, quota) else []
  }

  function AnnounceSteps(t: string, a: Answers, quota: Quota): seq<Step> {
    [Act(t, Cost(quota.isNew, a.records))] + if a.records then [Act(t, Announce(a.reached != 0))] else []
  }

  /** Setup, and the way out if it fails: n channels wait for the trace. */
  function CreatorSteps(t: string, a: Answers, funded: bool, did: nat, n: nat): seq<Step> {
    SetupSteps(t, a, funded) + if SetupOutcome(a, funded).None? then [] else LeaveSteps(t, a, did, n)
  }

  function RegisteredSteps(ch: string, created: bool, a: Answers, funded: bool, did: nat, n: nat): seq<Step> {
    [Act(ch, Move.Register)] + if created then CreatorSteps(ch, a, funded, did, n) else []
  }

  function PublishedSteps(ch: string, reply: PublishReply, a: Answers, funded: bool, did: nat, n: nat): seq<Step> {
    [Act(ch, Publish)] + RepliedSteps(ch, reply, a, funded, did, n)
  }

  function RepliedSteps(ch: string, reply: PublishReply, a: Answers, funded: bool, did: nat, n: nat): seq<Step> {
    if reply.Cached? then [] else RegisteredSteps(ch, reply.Created?, a, funded, did, n)
  }

  /** Everything one uninterrupted request does up to the select. */
  function ParseSteps(ch: string, reply: PublishReply, a: Answers, funded: bool, did: nat, n: nat): seq<Step> {
    if a.publishes then PublishedSteps(ch, reply, a, funded, did, n) else [Act(ch, PublishFails)]
  }

  function GPOf(a: Answers): int {
    if a.quota.Some? then a.quota.value.gp else 0
  }

  function CreatorOutcome(t: string, a: Answers, funded: bool): Outcome {
    if SetupOutcome(a, funded).None? then Waiting(t, true, GPOf(a)) else SetupFailed
  }

  function ParseOutcome(reply: PublishReply, a: Answers, funded: bool): Outcome {
    if a.publishes then PublishedOutcome(reply, a, funded) else PublishFailed
  }

  function PublishedOutcome(reply: PublishReply, a: Answers, funded: bool): Outcome {
    match reply
    case Cached(url) => FromCache(url)
    case Collapsed(t) => Waiting(t, false, 0)
    case Created(t) => CreatorOutcome(t, a, funded)
  }

  function WaitersAfter(w: World, rid: string, move: Move): map<string, seq<string>>
    requires rid in w.requests
  {
    if move.Register? then Joined(w.waiters, w.requests[rid].trace, rid)
    else if move.Unregister? then Left(w.waiters, w.requests[rid].trace, rid)
    else w.waiters
  }

  function Served(requests: map<string, Request>, rid: string, result: TaskResult): map<string, Request> {
    if rid !in requests || requests[rid].inbox.Some? then requests
    else requests[rid := requests[rid].(inbox := Some(result), heard := requests[rid].heard + 1)]
  }

  // ---- what one report does to its task ----

  /** Redis after a normalised report: completed if the node holds the lease, else failed if it may be. */
  function Handled(c: Config, s: Store, t: string, node: string, normal: TaskResult): Store {
    if normal.success && CompleteReplyFor(s, t, node) == CompleteOk then Complete(c, s, t, node, normal.url)
    else Finalize(s, t, node, FailMode.Fail)
  }

  predicate HeldBy(s: Store, t: string, node: string) {
    StatusIs(s, t, Processing) && s.tasks[t].node == node
  }

  /**
   * Exactly what a report does. It completes the task iff it carries a URL and comes from the node that holds
   * the lease; it fails the task iff the task is waiting, whoever reports and whatever it says, or its own
   * (named) holder reports without a URL; and in every other case Redis is untouched.
   */
  lemma ReportOutcome(c: Config, s: Store, t: string, node: string, result: TaskResult)
    ensures var usable := result.success && result.url != ""; var s' := Handled(c, s, t, node, Normalised(result));
      var completes := HeldBy(s, t, node) && usable;
      var fails := StatusIs(s, t, Pending) || (HeldBy(s, t, node) && !usable && node != "");
      && (completes <==> !StatusIs(s, t, Completed) && StatusIs(s', t, Completed))
      && (fails <==> !StatusIs(s, t, Failed) && StatusIs(s', t, Failed))
      && (!completes && !fails <==> s' == s)
  {
    var s' := Handled(c, s, t, node, Normalised(result));
    if StatusIs(s, t, Pending) || HeldBy(s, t, node) {
      assert s' == s || s'.tasks[t] != s.tasks[t];
    }
  }

  class Server {
    const cfg: Config
    const sched: Redis.Scheduler
    const balanceSvc: Balance.Service
    var waiters: map<string, seq<string>>
    var inboxes: map<string, TaskResult>
    ghost var run: Run

    ghost function World(): World
      reads this
      requires run.states != []
    {
      run.Last()
    }

    ghost predicate InboxesAgree(requests: map<string, Request>)
      reads this`inboxes
    {
      forall rid :: rid in requests ==>
        requests[rid].inbox == if rid in inboxes then Some(inboxes[rid]) else None
    }

    /** The goroutine's local variables are what the move makes of them. */
    ghost predicate DidMove(before: World, rid: string, move: Move)
      requires run.states != [] && Enabled(before, rid, move)
      reads this
    {
      && rid in World().requests && World().requests[rid] == Moved(before, rid, move)
      && (!move.NotifyRejected? ==> World().deliveries == before.deliveries)
    }

    ghost predicate Valid()
      reads this, sched, balanceSvc
    {
      && sched.Valid() && sched.cfg == cfg
      && IsRun(cfg, run)
      && World().sched.store == sched.model && World().sched.dog.Idle?
      && World().books == balanceSvc.State()
      && World().waiters == waiters
      && InboxesAgree(World().requests)
    }

    constructor (cfg: Config)
      ensures Valid() && run == Run([Start], [])
      ensures fresh(sched) && fresh(balanceSvc)
    {
      this.cfg := cfg;
      sched := new Redis.Scheduler(cfg);
      balanceSvc := new Balance.Service();
      waiters, inboxes := map[], map[];
      run := Run([Start], []);
    }

    /** Records that a step of the machine has just been carried out. */
    ghost method Note(s: Step)
      requires IsRun(cfg, run)
      modifies this`run
      ensures IsRun(cfg, run) && Extends(old(run), run, [s]) && run.Last() == Next(cfg, old(run).Last(), s)
    {
      ExtendIsRun(cfg, run, s);
      run := Extend(cfg, run, s);
    }

    /** The same for a move of one request, told part by part. */
    ghost method NoteMove(rid: string, move: Move)
      requires IsRun(cfg, run) && Enabled(run.Last(), rid, move) && !move.NotifyRejected?
      modifies this`run
      ensures IsRun(cfg, run) && Extends(old(run), run, [Act(rid, move)])
      ensures var w, w' := old(run).Last(), run.Last();
        && w'.requests == w.requests[rid := Moved(w, rid, move)]
        && w'.books == Paid(w, rid, move)
        && w'.waiters == WaitersAfter(w, rid, move)
        && w'.sched == SchedAfter(cfg, w.sched, ScriptOfMove(w, rid, move))
        && w'.deliveries == w.deliveries && w'.sched.dog == w.sched.dog
        && w'.requests[rid].inbox == if move.Receive? then None else w.requests[rid].inbox
    {
      Note(Act(rid, move));
    }

    ghost method NotePublish(rid: string)
      requires IsRun(cfg, run) && Enabled(run.Last(), rid, Publish) && Sched.FreshTrace(run.Last().sched, rid)
      modifies this`run
      ensures IsRun(cfg, run) && Extends(old(run), run, [Act(rid, Publish)])
      ensures var w, w' := old(run).Last(), run.Last(); var r := w.requests[rid];
        && w'.requests == w.requests[rid := Moved(w, rid, Publish)]
        && w'.books == w.books && w'.waiters == w.waiters && w'.deliveries == w.deliveries
        && w'.requests[rid].inbox == r.inbox && w'.sched.dog == w.sched.dog
        && w'.sched.store == TaskStore.Publish(cfg, w.sched.store, rid, SlotOf(r), r.galleryKey, r.force)
    {
      NoteMove(rid, Publish);
    }

    // ---- the atomic sections of ParseGallery ----

    method Arrive(traceID: string, userID: string, galleryID: string, galleryKey: string, force: bool)
      requires Valid() && MayArrive(World(), traceID)
      modifies this
      ensures Valid() && Extends(old(run), run, [Step.Arrive(traceID, userID, galleryID, galleryKey, force)])
      ensures World() == old(World()).(requests := World().requests)
      ensures traceID in World().requests
      ensures World().requests[traceID] == Arrived(userID, galleryID, galleryKey, force)
    {
      inboxes := inboxes - {traceID};
      Note(Step.Arrive(traceID, userID, galleryID, galleryKey, force));
    }

    method PublishTask(traceID: string, userID: string, galleryID: string, galleryKey: string, force: bool)
      returns (reply: PublishReply)
      requires Valid() && Enabled(World(), traceID, Publish) && ColonFree(userID)
      requires var r := World().requests[traceID];
        r.user == userID && r.gallery == galleryID && r.galleryKey == galleryKey && r.force == force
      modifies this`run, sched
      ensures Valid() && Extends(old(run), run, [Act(traceID, Publish)])
      ensures DidMove(old(World()), traceID, Publish)
      ensures reply == PublishReplyFor(old(World()).sched.store, traceID, Slot(userID, galleryID), force)
    {
      Fresh(traceID);
      NotePublish(traceID);
      reply := sched.PublishTask(traceID, userID, galleryID, galleryKey, force);
    }

    method Register(traceID: string, ch: string, created: bool)
      requires Valid() && Enabled(World(), ch, Move.Register)
      requires World().requests[ch].trace == traceID && World().requests[ch].created == created
      modifies this`run, this`waiters
      ensures Valid() && Extends(old(run), run, [Act(ch, Move.Register)])
      ensures DidMove(old(World()), ch, Move.Register) && waiters == Joined(old(waiters), traceID, ch)
    {
      waiters := Joined(waiters, traceID, ch);
      NoteMove(ch, Move.Register);
    }

    /** ResolveParseParams answers from the network. */
    method Resolve(traceID: string, quota: Option<int>)
      requires Valid() && Enabled(World(), traceID, Move.Resolve(quota))
      modifies this`run
      ensures Valid() && Extends(old(run), run, [Act(traceID, Move.Resolve(quota))])
      ensures DidMove(old(World()), traceID, Move.Resolve(quota))
    {
      NoteMove(traceID, Move.Resolve(quota));
    }

    /** A move with no effect outside the goroutine. */
    method Silent(rid: string, ghost move: Move)
      requires Valid() && Enabled(World(), rid, move) && (move.PublishFails? || move.Timeout? || move.Cancel?)
      modifies this`run
      ensures Valid() && Extends(old(run), run, [Act(rid, move)])
      ensures DidMove(old(World()), rid, move)
    {
      NoteMove(rid, move);
    }

    method FreezeGP(userID: string, traceID: string, estimatedGP: int, answered: bool)
      returns (reply: Balance.FreezeReply)
      requires Valid() && Enabled(World(), traceID, FreezeEstimate(answered))
      requires var r := World().requests[traceID];
        r.user == userID && r.trace == traceID && r.estimatedGP == estimatedGP
      modifies this`run, balanceSvc
      ensures Valid() && Extends(old(run), run, [Act(traceID, FreezeEstimate(answered))])
      ensures DidMove(old(World()), traceID, FreezeEstimate(answered))
      ensures reply == if !answered then Balance.FreezeError
                       else if CanFreeze(old(World()).books, userID, estimatedGP) then Balance.FreezeDone
                       else Balance.InsufficientBalance
    {
      reply := balanceSvc.FreezeGP(userID, traceID, estimatedGP, answered);
      NoteMove(traceID, FreezeEstimate(answered));
    }

    method UpdateTaskCost(traceID: string, freeTier: bool, estimatedGP: int, answered: bool)
      requires Valid() && Enabled(World(), traceID, Cost(freeTier, answered))
      requires World().requests[traceID].estimatedGP == estimatedGP
      modifies this`run, sched
      ensures Valid() && Extends(old(run), run, [Act(traceID, Cost(freeTier, answered))])
      ensures DidMove(old(World()), traceID, Cost(freeTier, answered))
    {
      CostingIsBorn(traceID);
      if answered { sched.UpdateTaskCost(traceID, freeTier, estimatedGP); }
      NoteMove(traceID, Cost(freeTier, answered));
    }

    /** A created request past publication: its trace is its own, and on the log. */
    lemma CostingIsBorn(rid: string)
      requires Valid() && rid in World().requests && World().requests[rid].pc.Costing?
      ensures World().requests[rid].trace == rid && Sched.Born(World().sched, rid)
    {
      Money.RunsAreRight(cfg, run, |run.steps|);
      assert Truth.RequestTrue(World().sched.log, rid, World().requests[rid]);
    }

    method BroadcastTaskAnnouncement(traceID: string, reached: nat) returns (ok: bool)
      requires Valid() && Enabled(World(), traceID, Announce(reached != 0))
      modifies this`run
      ensures Valid() && Extends(old(run), run, [Act(traceID, Announce(reached != 0))])
      ensures DidMove(old(World()), traceID, Announce(reached != 0))
      ensures ok == (reached != 0)
    {
      ok := reached != 0;
      NoteMove(traceID, Announce(ok));
    }

    method RejectTask(traceID: string, answered: bool)
      requires Valid() && Enabled(World(), traceID, Move.Reject(answered)) && World().requests[traceID].trace == traceID
      modifies this`run, sched
      ensures Valid() && Extends(old(run), run, [Act(traceID, Move.Reject(answered))])
      ensures DidMove(old(World()), traceID, Move.Reject(answered))
    {
      if answered { var _ := sched.FinalizeTask(traceID, "", FailMode.Reject); }
      NoteMove(traceID, Move.Reject(answered));
    }

    method RefundTask(userID: string, traceID: string, ch: string, estimatedGP: int, commits: bool)
      requires Valid() && Enabled(World(), ch, RefundEstimate(commits))
      requires var r := World().requests[ch]; r.user == userID && r.trace == traceID && r.estimatedGP == estimatedGP
      modifies this`run, balanceSvc
      ensures Valid() && Extends(old(run), run, [Act(ch, RefundEstimate(commits))])
      ensures DidMove(old(World()), ch, RefundEstimate(commits))
    {
      var _ := balanceSvc.RefundTask(userID, traceID, estimatedGP, commits);
      NoteMove(ch, RefundEstimate(commits));
    }

    method RefundAfterSetup(userID: string, traceID: string, err: SetupError, estimatedGP: int, commits: bool)
      requires Valid() && Enabled(World(), traceID, Repay(commits)) && World().requests[traceID].pc.error == err
      requires var r := World().requests[traceID];
        r.user == userID && r.trace == traceID && r.estimatedGP == estimatedGP
      modifies this`run, balanceSvc
      ensures Valid() && Extends(old(run), run, [Act(traceID, Repay(commits))])
      ensures DidMove(old(World()), traceID, Repay(commits))
    {
      if err != Insufficient && estimatedGP > 0 {
        var _ := balanceSvc.RefundTask(userID, traceID, estimatedGP, commits);
      }
      NoteMove(traceID, Repay(commits));
    }

    method SettleTask(userID: string, traceID: string, ch: string, estimatedGP: int, actualGP: int, commits: bool)
      requires Valid() && Enabled(World(), ch, Move.Settle(commits))
      requires var r := World().requests[ch]; r.user == userID && r.trace == traceID && r.estimatedGP == estimatedGP
      modifies this`run, balanceSvc
      ensures Valid() && Extends(old(run), run, [Act(ch, Move.Settle(commits))])
      ensures DidMove(old(World()), ch, Move.Settle(commits))
    {
      var _ := balanceSvc.SettleTask(userID, traceID, estimatedGP, actualGP, commits);
      NoteMove(ch, Move.Settle(commits));
    }

    /** result := <-resultCh */
    method Receive(ch: string) returns (result: TaskResult)
      requires Valid() && Enabled(World(), ch, Move.Receive)
      modifies this`run, this`inboxes
      ensures Valid() && Extends(old(run), run, [Act(ch, Move.Receive)])
      ensures DidMove(old(World()), ch, Move.Receive)
      ensures Some(result) == old(World()).requests[ch].inbox
    {
      result := inboxes[ch];
      inboxes := inboxes - {ch};
      NoteMove(ch, Move.Receive);
    }

    method Unregister(traceID: string, ch: string)
      requires Valid() && Enabled(World(), ch, Move.Unregister) && World().requests[ch].trace == traceID
      modifies this`run, this`waiters
      ensures Valid() && Extends(old(run), run, [Act(ch, Move.Unregister)])
      ensures DidMove(old(World()), ch, Move.Unregister)
    {
      waiters := Left(waiters, traceID, ch);
      NoteMove(ch, Move.Unregister);
    }

    /** The locked half of ResultWaiter.Notify. */
    method TakeWaiters(traceID: string) returns (chs: seq<string>)
      modifies this`waiters
      ensures chs == WaitersOf(old(waiters), traceID) && waiters == old(waiters) - {traceID}
    {
      chs := WaitersOf(waiters, traceID);
      waiters := waiters - {traceID};
    }

    method NotifyRejected(traceID: string, ghost did: nat) returns (chs: seq<string>)
      requires Valid() && Enabled(World(), traceID, Move.NotifyRejected(did))
      requires World().requests[traceID].trace == traceID
      modifies this`run, this`waiters
      ensures Valid() && Extends(old(run), run, [Act(traceID, Move.NotifyRejected(did))])
      ensures DidMove(old(World()), traceID, Move.NotifyRejected(did))
      ensures chs == WaitersOf(old(waiters), traceID)
      ensures did in World().deliveries && World().deliveries[did] == Delivery(traceID, chs, Failure)
    {
      chs := TakeWaiters(traceID);
      Note(Act(traceID, Move.NotifyRejected(did)));
    }

    /** What one send changes. */
    ghost method NoteSend(did: nat)
      requires IsRun(cfg, run) && did in run.Last().deliveries && run.Last().deliveries[did].chs != []
      modifies this`run
      ensures IsRun(cfg, run) && Extends(old(run), run, [Step.Deliver(did)])
      ensures var w, w' := old(run).Last(), run.Last(); var d := w.deliveries[did];
        && w'.deliveries == w.deliveries[did := d.(chs := d.chs[1..])]
        && w'.books == w.books && w'.waiters == w.waiters && w'.sched == w.sched
        && w'.requests == Served(w.requests, d.chs[0], d.result)
    {
      Note(Step.Deliver(did));
    }

    /** One send of the unlocked half: select { case ch <- result: default: } */
    method Send(ghost did: nat, ghost traceID: string, chs: seq<string>, result: TaskResult)
      requires Valid() && chs != []
      requires did in World().deliveries && World().deliveries[did] == Delivery(traceID, chs, result)
      modifies this`run, this`inboxes
      ensures Valid() && Extends(old(run), run, [Step.Deliver(did)])
      ensures did in World().deliveries && World().deliveries[did] == Delivery(traceID, chs[1..], result)
      ensures OnlyInboxes(old(World()).requests, World().requests)
    {
      if chs[0] !in inboxes { inboxes := inboxes[chs[0] := result]; }
      NoteSend(did);
    }

    /** The unlocked half of ResultWaiter.Notify, run through. */
    method Deliver(ghost did: nat, ghost traceID: string, chs: seq<string>, result: TaskResult)
      requires Valid() && did in World().deliveries && World().deliveries[did] == Delivery(traceID, chs, result)
      modifies this`run, this`inboxes
      ensures Valid() && Extends(old(run), run, Sends(did, |chs|))
      ensures OnlyInboxes(old(World()).requests, World().requests)
    {
      var rest := chs;
      while rest != []
        invariant |rest| <= |chs|
        invariant Valid() && Extends(old(run), run, Sends(did, |chs| - |rest|))
        invariant did in World().deliveries && World().deliveries[did] == Delivery(traceID, rest, result)
        invariant OnlyInboxes(old(World()).requests, World().requests)
      {
        ghost var before := run;
        Send(did, traceID, rest, result);
        ExtendsMore(old(run), before, run, Sends(did, |chs| - |rest|), [Step.Deliver(did)]);
        rest := rest[1..];
      }
    }

    // ---- ParseGallery, section after section ----

    /** setupCreatedTask: resolve, freeze, record the cost, announce; the first failure ends it. */
    method SetupCreatedTask(userID: string, traceID: string, a: Answers)
      returns (estimatedGP: int, err: Option<SetupError>)
      requires Valid() && traceID in World().requests && Plausible(a)
      requires var r := World().requests[traceID];
        r.pc == Resolving && r.user == userID && r.trace == traceID && r.estimatedGP == 0
      modifies this`run, sched, balanceSvc
      ensures var funded := CanFreeze(old(World()).books, userID, GPOf(a));
        && Valid() && err == SetupOutcome(a, funded)
        && Extends(old(run), run, SetupSteps(traceID, a, funded))
      ensures estimatedGP == GPOf(a)
      ensures LeftBySetup(old(World()), traceID, estimatedGP, err)
    {
      Resolve(traceID, Amount(a.quota));
      if a.quota.None? { return 0, Some(Unresolved); }
      estimatedGP := a.quota.value.gp;
      ghost var before := run;
      err := FreezeAndAnnounce(userID, traceID, a, a.quota.value);
      ExtendsMore(old(run), before, run, [Act(traceID, Move.Resolve(Amount(a.quota)))],
                  PaySteps(traceID, a, a.quota.value, CanFreeze(before.Last().books, userID, estimatedGP)));
    }

    /** The request is where a setup with this outcome leaves it. */
    ghost predicate LeftBySetup(before: World, rid: string, estimatedGP: int, err: Option<SetupError>)
      requires run.states != [] && rid in before.requests
      reads this
    {
      && rid in World().requests
      && World().requests[rid] == before.requests[rid].(
           pc := if err.Some? then Rejecting(err.value) else Awaiting, estimatedGP := estimatedGP)
      && World().deliveries == before.deliveries
    }

    method FreezeAndAnnounce(userID: string, traceID: string, a: Answers, quota: Quota)
      returns (err: Option<SetupError>)
      requires Valid() && Enabled(World(), traceID, FreezeEstimate(a.freezes))
      requires var r := World().requests[traceID]; r.user == userID && r.trace == traceID && r.estimatedGP == quota.gp
      modifies this`run, sched, balanceSvc
      ensures var funded := CanFreeze(old(World()).books, userID, quota.gp);
        && Valid() && err == PayOutcome(a, funded)
        && Extends(old(run), run, PaySteps(traceID, a, quota, funded))
      ensures LeftBySetup(old(World()), traceID, quota.gp, err)
    {
      var reply := FreezeGP(userID, traceID, quota.gp, a.freezes);
      if reply == Balance.InsufficientBalance { return Some(Insufficient); }
      if reply == Balance.FreezeError { return Some(FreezeFailed); }
      ghost var before := run;
      err := RecordAndAnnounce(traceID, a, quota);
      ExtendsMore(old(run), before, run, [Act(traceID, FreezeEstimate(a.freezes))], AnnounceSteps(traceID, a, quota));
    }

    method RecordAndAnnounce(traceID: string, a: Answers, quota: Quota) returns (err: Option<SetupError>)
      requires Valid() && Enabled(World(), traceID, Cost(quota.isNew, a.records))
      requires World().requests[traceID].trace == traceID && World().requests[traceID].estimatedGP == quota.gp
      modifies this`run, sched
      ensures Valid() && err == AnnounceOutcome(a)
      ensures Extends(old(run), run, AnnounceSteps(traceID, a, quota))
      ensures LeftBySetup(old(World()), traceID, quota.gp, err)
    {
      UpdateTaskCost(traceID, quota.isNew, quota.gp, a.records);
      if !a.records { return Some(CostFailed); }
      ghost var before := run;
      var ok := BroadcastTaskAnnouncement(traceID, a.reached);
      ExtendsMore(old(run), before, run, [Act(traceID, Cost(quota.isNew, a.records))],
                  [Act(traceID, Announce(a.reached != 0))]);
      err := if ok then None else Some(NoNodes);
    }

    /** After a failed setup: reject the task, tell the collapsed waiters, refund what seems to be frozen. */
    method AbandonTask(userID: string, traceID: string, err: SetupError, estimatedGP: int, a: Answers, ghost did: nat)
      requires Valid() && Enabled(World(), traceID, Move.Reject(a.rejects)) && did !in World().deliveries
      requires var r := World().requests[traceID];
        r.pc == Rejecting(err) && r.user == userID && r.trace == traceID && r.estimatedGP == estimatedGP
      modifies this, sched, balanceSvc
      ensures Valid()
      ensures Extends(old(run), run, AbandonSteps(traceID, a, did, |WaitersOf(old(waiters), traceID)|))
      ensures traceID in World().requests
      ensures World().requests[traceID].pc == Leaving(ErrorReply) && World().requests[traceID].trace == traceID
    {
      ghost var s1 := [Act(traceID, Move.Reject(a.rejects))];
      ghost var s2 := TellSteps(traceID, did, |WaitersOf(waiters, traceID)|);
      RejectTask(traceID, a.rejects);
      ghost var r1 := run;
      TellWaiters(traceID, did);
      ghost var r2 := run;
      ExtendsMore(old(run), r1, r2, s1, s2);
      RefundAfterSetup(userID, traceID, err, estimatedGP, a.refunds);
      ExtendsMore(old(run), r2, run, s1 + s2, [Act(traceID, Repay(a.refunds))]);
    }

    /** waiter.Notify with the made-up failure, run through. */
    method TellWaiters(traceID: string, ghost did: nat)
      requires Valid() && Enabled(World(), traceID, Move.NotifyRejected(did))
      requires World().requests[traceID].trace == traceID
      modifies this`run, this`waiters, this`inboxes
      ensures Valid() && Extends(old(run), run, TellSteps(traceID, did, |WaitersOf(old(waiters), traceID)|))
      ensures traceID in World().requests
      ensures var r, r' := old(World()).requests[traceID], World().requests[traceID];
        r' == r.(pc := Repaying(r.pc.error), inbox := r'.inbox, heard := r'.heard)
    {
      var chs := NotifyRejected(traceID, did);
      ghost var before := run;
      Deliver(did, traceID, chs, Failure);
      ExtendsMore(old(run), before, run, [Act(traceID, Move.NotifyRejected(did))], Sends(did, |chs|));
    }

    /** The goroutine's locals, as ParseGallery holds them while it waits. */
    ghost predicate Locals(ch: string, userID: string, traceID: string, created: bool, estimatedGP: int)
      requires run.states != []
      reads this
    {
      ch in World().requests
      && var r := World().requests[ch];
      r.user == userID && r.trace == traceID && r.created == created && r.estimatedGP == estimatedGP
    }

    /** The refund closure: only created tasks have frozen GP. */
    method Refund(userID: string, traceID: string, ch: string, created: bool, estimatedGP: int,
                  ghost reply: Reply, commits: bool)
      requires Valid() && Locals(ch, userID, traceID, created, estimatedGP)
      requires World().requests[ch].pc == AfterWaiting(World().requests[ch], reply)
      modifies this`run, balanceSvc
      ensures Valid() && Locals(ch, userID, traceID, created, estimatedGP) && World().requests[ch].pc == Leaving(reply)
      ensures Extends(old(run), run, ReleaseSteps(ch, created, estimatedGP, false, commits))
    {
      if !created || estimatedGP == 0 { return; }
      RefundTask(userID, traceID, ch, estimatedGP, commits);
    }

    /** A result has arrived: settle or refund, and the reply to give. */
    method ReceiveResult(userID: string, traceID: string, ch: string, created: bool, estimatedGP: int, commits: bool)
      returns (reply: Reply)
      requires Valid() && Locals(ch, userID, traceID, created, estimatedGP) && Enabled(World(), ch, Move.Receive)
      modifies this`run, this`inboxes, balanceSvc
      ensures Valid() && Locals(ch, userID, traceID, created, estimatedGP) && World().requests[ch].pc == Leaving(reply)
      ensures var result := old(World()).requests[ch].inbox.value;
        && reply == ReplyTo(created, estimatedGP, result)
        && Extends(old(run), run,
                   [Act(ch, Move.Receive)] + ReleaseSteps(ch, created, estimatedGP, result.success, commits))
    {
      var result := Receive(ch);
      ghost var before := run;
      if created {
        if result.success {
          SettleTask(userID, traceID, ch, estimatedGP, result.actualGP, commits);
        } else {
          Refund(userID, traceID, ch, created, estimatedGP, ErrorReply, commits);
        }
      }
      ExtendsMore(old(run), before, run, [Act(ch, Move.Receive)],
                  ReleaseSteps(ch, created, estimatedGP, result.success, commits));
      if !result.success { return ErrorReply; }
      var gpCost := estimatedGP;
      if !created { gpCost := 0; }
      reply := DoneReply(gpCost, result.url);
    }

    /** Timeout or cancellation: a refund, and an error to give. */
    method GiveUp(userID: string, traceID: string, ch: string, created: bool, estimatedGP: int,
                  cancelled: bool, commits: bool)
      returns (reply: Reply)
      requires Valid() && Locals(ch, userID, traceID, created, estimatedGP) && World().requests[ch].pc == Awaiting
      modifies this`run, balanceSvc
      ensures Valid() && Locals(ch, userID, traceID, created, estimatedGP) && World().requests[ch].pc == Leaving(reply)
      ensures reply == if cancelled then CancelReply else ErrorReply
      ensures Extends(old(run), run, [Act(ch, if cancelled then Move.Cancel else Move.Timeout)]
                                     + ReleaseSteps(ch, created, estimatedGP, false, commits))
    {
      ghost var move := if cancelled then Move.Cancel else Move.Timeout;
      Silent(ch, move);
      ghost var before := run;
      reply := if cancelled then CancelReply else ErrorReply;
      Refund(userID, traceID, ch, created, estimatedGP, reply, commits);
      ExtendsMore(old(run), before, run, [Act(ch, move)], ReleaseSteps(ch, created, estimatedGP, false, commits));
    }

    /** The select of ParseGallery with its releases, and the deferred Unregister. */
    method Wait(userID: string, traceID: string, ch: string, created: bool, estimatedGP: int,
                event: Event, commits: bool)
      returns (reply: Reply)
      requires Valid() && Locals(ch, userID, traceID, created, estimatedGP) && Enabled(World(), ch, Woken(event))
      modifies this, balanceSvc
      ensures Valid() && ch in World().requests && World().requests[ch].pc == Gone(reply)
      ensures var success := event.GotResult? && old(World()).requests[ch].inbox.value.success;
        Extends(old(run), run, [Act(ch, Woken(event))] + ReleaseSteps(ch, created, estimatedGP, success, commits)
                               + [Act(ch, Move.Unregister)])
    {
      ghost var success := event.GotResult? && World().requests[ch].inbox.value.success;
      if event.GotResult? {
        reply := ReceiveResult(userID, traceID, ch, created, estimatedGP, commits);
      } else {
        reply := GiveUp(userID, traceID, ch, created, estimatedGP, event.Cancelled?, commits);
      }
      ghost var before := run;
      ghost var steps := [Act(ch, Woken(event))] + ReleaseSteps(ch, created, estimatedGP, success, commits);
      Unregister(traceID, ch);
      ExtendsMore(old(run), before, run, steps, [Act(ch, Move.Unregister)]);
    }

    /** ParseGallery up to the select, run through by one request under a fresh uuid. */
    method ParseGallery(traceID: string, userID: string, galleryID: string, galleryKey: string, force: bool,
                        a: Answers, ghost did: nat)
      returns (outcome: Outcome)
      requires Valid() && MayArrive(World(), traceID) && ColonFree(userID) && Plausible(a) && did !in World().deliveries
      modifies this, sched, balanceSvc
      ensures var w := old(World());
        var reply := PublishReplyFor(w.sched.store, traceID, Slot(userID, galleryID), force);
        var funded := CanFreeze(w.books, userID, GPOf(a));
        && Valid() && outcome == ParseOutcome(reply, a, funded)
        && Extends(old(run), run,
                   [Step.Arrive(traceID, userID, galleryID, galleryKey, force)]
                   + ParseSteps(traceID, reply, a, funded, did, |WaitersOf(w.waiters, traceID)| + 1))
      ensures Reached(traceID, userID, outcome)
    {
      Arrive(traceID, userID, galleryID, galleryKey, force);
      ghost var before, w := run, World();
      ghost var reply := PublishReplyFor(w.sched.store, traceID, Slot(userID, galleryID), force);
      ghost var steps := ParseSteps(traceID, reply, a, CanFreeze(w.books, userID, GPOf(a)), did,
                                    |WaitersOf(waiters, traceID)| + 1);
      outcome := ParseArrived(traceID, userID, galleryID, galleryKey, force, a, did);
      ExtendsMore(old(run), before, run, [Step.Arrive(traceID, userID, galleryID, galleryKey, force)], steps);
    }

    /** The same once the uuid is drawn: publish, or fail to. */
    method ParseArrived(traceID: string, userID: string, galleryID: string, galleryKey: string, force: bool,
                        a: Answers, ghost did: nat)
      returns (outcome: Outcome)
      requires Valid() && traceID in World().requests && ColonFree(userID) && Plausible(a) && did !in World().deliveries
      requires World().requests[traceID] == Arrived(userID, galleryID, galleryKey, force)
      modifies this, sched, balanceSvc
      ensures var w := old(World());
        var reply := PublishReplyFor(w.sched.store, traceID, Slot(userID, galleryID), force);
        var funded := CanFreeze(w.books, userID, GPOf(a));
        && Valid() && outcome == ParseOutcome(reply, a, funded)
        && Extends(old(run), run, ParseSteps(traceID, reply, a, funded, did, |WaitersOf(w.waiters, traceID)| + 1))
      ensures Reached(traceID, userID, outcome)
    {
      if a.publishes {
        outcome := PublishAndOn(traceID, userID, galleryID, galleryKey, force, a, did);
      } else {
        Silent(traceID, PublishFails);
        outcome := PublishFailed;
      }
    }

    /** From the atomic publish on. */
    method PublishAndOn(traceID: string, userID: string, galleryID: string, galleryKey: string, force: bool,
                        a: Answers, ghost did: nat)
      returns (outcome: Outcome)
      requires Valid() && traceID in World().requests && ColonFree(userID) && Plausible(a) && did !in World().deliveries
      requires World().requests[traceID] == Arrived(userID, galleryID, galleryKey, force)
      modifies this, sched, balanceSvc
      ensures var w := old(World());
        var reply := PublishReplyFor(w.sched.store, traceID, Slot(userID, galleryID), force);
        var funded := CanFreeze(w.books, userID, GPOf(a));
        && Valid() && outcome == PublishedOutcome(reply, a, funded)
        && Extends(old(run), run, PublishedSteps(traceID, reply, a, funded, did, |WaitersOf(w.waiters, traceID)| + 1))
      ensures Reached(traceID, userID, outcome)
    {
      ghost var w := World();
      var reply := PublishRequest(traceID, userID, galleryID, galleryKey, force);
      ghost var before := run;
      outcome := AfterReply(traceID, userID, reply, a, did);
      ExtendsMore(old(run), before, run, [Act(traceID, Publish)],
                  RepliedSteps(traceID, reply, a, CanFreeze(w.books, userID, GPOf(a)), did,
                               |WaitersOf(w.waiters, traceID)| + 1));
    }

    /** Where the reply of the publish script puts the request. */
    ghost predicate Replied(ch: string, userID: string, reply: PublishReply)
      requires run.states != []
      reads this
    {
      ch in World().requests
      && var r := World().requests[ch];
      r.user == userID
      && match reply
         case Cached(url) => r.pc == Hit(url)
         case Collapsed(t) => r.pc == Registering && !r.created && r.trace == t && r.estimatedGP == 0
         case Created(t) => r.pc == Registering && r.created && r.trace == t == ch && r.estimatedGP == 0
    }

    method PublishRequest(traceID: string, userID: string, galleryID: string, galleryKey: string, force: bool)
      returns (reply: PublishReply)
      requires Valid() && traceID in World().requests && ColonFree(userID)
      requires World().requests[traceID] == Arrived(userID, galleryID, galleryKey, force)
      modifies this`run, sched
      ensures Valid() && Extends(old(run), run, [Act(traceID, Publish)]) && Replied(traceID, userID, reply)
      ensures reply == PublishReplyFor(old(World()).sched.store, traceID, Slot(userID, galleryID), force)
      ensures World().books == old(World()).books && World().deliveries == old(World()).deliveries
    {
      reply := PublishTask(traceID, userID, galleryID, galleryKey, force);
    }

    method AfterReply(ch: string, userID: string, reply: PublishReply, a: Answers, ghost did: nat)
      returns (outcome: Outcome)
      requires Valid() && Plausible(a) && did !in World().deliveries
      requires Replied(ch, userID, reply)
      modifies this, sched, balanceSvc
      ensures var w := old(World()); var funded := CanFreeze(w.books, userID, GPOf(a));
        && Valid() && outcome == PublishedOutcome(reply, a, funded)
        && Extends(old(run), run, RepliedSteps(ch, reply, a, funded, did, |WaitersOf(w.waiters, ch)| + 1))
      ensures Reached(ch, userID, outcome)
    {
      if reply.Cached? { return FromCache(reply.url); }
      outcome := AfterPublish(ch, userID, reply.trace, reply.Created?, a, did);
    }

    /** Registered, and set up if the task is this request's own. */
    method AfterPublish(ch: string, userID: string, traceID: string, created: bool, a: Answers, ghost did: nat)
      returns (outcome: Outcome)
      requires Valid() && Locals(ch, userID, traceID, created, 0) && World().requests[ch].pc == Registering
      requires (created ==> ch == traceID) && Plausible(a) && did !in World().deliveries
      modifies this, sched, balanceSvc
      ensures var funded := CanFreeze(old(World()).books, userID, GPOf(a));
        && Valid()
        && outcome == (if created then CreatorOutcome(traceID, a, funded) else Waiting(traceID, false, 0))
        && Extends(old(run), run,
                   RegisteredSteps(ch, created, a, funded, did, |WaitersOf(old(waiters), ch)| + 1))
      ensures Reached(ch, userID, outcome)
    {
      ghost var b := World().books;
      Register(traceID, ch, created);
      assert World().books == b;
      if !created { return Waiting(traceID, false, 0); }
      ghost var before := run;
      ghost var steps := CreatorSteps(ch, a, CanFreeze(World().books, userID, GPOf(a)), did, |WaitersOf(waiters, ch)|);
      outcome := SetUpOrAbandon(userID, traceID, a, did);
      ExtendsMore(old(run), before, run, [Act(ch, Move.Register)], steps);
    }

    method SetUpOrAbandon(userID: string, traceID: string, a: Answers, ghost did: nat) returns (outcome: Outcome)
      requires Valid() && Locals(traceID, userID, traceID, true, 0) && World().requests[traceID].pc == Resolving
      requires Plausible(a) && did !in World().deliveries
      modifies this, sched, balanceSvc
      ensures var funded := CanFreeze(old(World()).books, userID, GPOf(a));
        && Valid() && outcome == CreatorOutcome(traceID, a, funded)
        && Extends(old(run), run, CreatorSteps(traceID, a, funded, did, |WaitersOf(old(waiters), traceID)|))
      ensures Reached(traceID, userID, outcome)
    {
      ghost var steps := SetupSteps(traceID, a, CanFreeze(World().books, userID, GPOf(a)));
      var estimatedGP, err := SetupCreatedTask(userID, traceID, a);
      if err.None? { return Waiting(traceID, true, estimatedGP); }
      ghost var before, leave := run, LeaveSteps(traceID, a, did, |WaitersOf(waiters, traceID)|);
      AbandonAndLeave(userID, traceID, err.value, estimatedGP, a, did);
      ExtendsMore(old(run), before, run, steps, leave);
      outcome := SetupFailed;
    }

    method AbandonAndLeave(userID: string, traceID: string, err: SetupError, estimatedGP: int,
                           a: Answers, ghost did: nat)
      requires Valid() && Locals(traceID, userID, traceID, true, estimatedGP)
      requires World().requests[traceID].pc == Rejecting(err)
      requires did !in World().deliveries
      modifies this, sched, balanceSvc
      ensures Valid()
      ensures Extends(old(run), run, LeaveSteps(traceID, a, did, |WaitersOf(old(waiters), traceID)|))
      ensures traceID in World().requests && World().requests[traceID].pc == Gone(ErrorReply)
    {
      ghost var s1 := AbandonSteps(traceID, a, did, |WaitersOf(waiters, traceID)|);
      AbandonTask(userID, traceID, err, estimatedGP, a, did);
      ghost var r1 := run;
      Unregister(traceID, traceID);
      ExtendsMore(old(run), r1, run, s1, [Act(traceID, Move.Unregister)]);
    }

    /** Where ParseGallery stands at the select, or how it ended before. */
    ghost predicate Reached(ch: string, userID: string, outcome: Outcome)
      requires run.states != []
      reads this
    {
      && ch in World().requests
      && match outcome
         case PublishFailed => World().requests[ch].pc == Unpublished
         case FromCache(url) => World().requests[ch].pc == Hit(url)
         case SetupFailed => World().requests[ch].pc == Gone(ErrorReply)
         case Waiting(t, created, gp) => World().requests[ch].pc == Awaiting && Locals(ch, userID, t, created, gp)
    }

    // ---- HandleTaskResult ----

    method ReportResult(ghost hid: nat, traceID: string, nodeID: string, result: TaskResult)
      returns (normal: TaskResult)
      requires Valid() && hid !in World().handlers
      modifies this`run
      ensures Valid() && Extends(old(run), run, [Report(hid, traceID, nodeID, result)])
      ensures normal == Normalised(result)
      ensures hid in World().handlers && World().handlers[hid] == Reported(traceID, nodeID, normal)
      ensures World().deliveries == old(World()).deliveries
    {
      normal := result;
      if normal.success && normal.url == "" { normal := normal.(success := false); }
      Note(Report(hid, traceID, nodeID, result));
    }

    method CompleteTask(ghost hid: nat, traceID: string, nodeID: string, result: TaskResult) returns (ok: bool)
      requires Valid() && hid in World().handlers && World().handlers[hid] == Completing(traceID, nodeID, result)
      modifies this`run, sched
      ensures Valid() && Extends(old(run), run, [HandlerComplete(hid)])
      ensures sched.model == Complete(cfg, old(sched.model), traceID, nodeID, result.url)
      ensures ok == (CompleteReplyFor(old(World()).sched.store, traceID, nodeID) == CompleteOk)
      ensures hid in World().handlers
      ensures World().handlers[hid] ==
              if ok then Reporting(traceID, result) else Failing(traceID, nodeID, result.(success := false))
      ensures World().deliveries == old(World()).deliveries
    {
      var reply := sched.CompleteTask(traceID, nodeID, result.url);
      ok := reply == CompleteOk;
      Note(HandlerComplete(hid));
    }

    method FailTask(ghost hid: nat, traceID: string, nodeID: string, ghost result: TaskResult)
      requires Valid() && hid in World().handlers && World().handlers[hid] == Failing(traceID, nodeID, result)
      modifies this`run, sched
      ensures Valid() && Extends(old(run), run, [HandlerFail(hid)])
      ensures sched.model == Finalize(old(sched.model), traceID, nodeID, FailMode.Fail)
      ensures hid in World().handlers && World().handlers[hid] == Reporting(traceID, result)
      ensures World().deliveries == old(World()).deliveries
    {
      var _ := sched.FinalizeTask(traceID, nodeID, FailMode.Fail);
      Note(HandlerFail(hid));
    }

    method NotifyResult(ghost hid: nat, traceID: string, result: TaskResult, ghost did: nat) returns (chs: seq<string>)
      requires Valid() && hid in World().handlers && World().handlers[hid] == Reporting(traceID, result)
      requires did !in World().deliveries
      modifies this`run, this`waiters
      ensures Valid() && Extends(old(run), run, [HandlerNotify(hid, did)])
      ensures chs == WaitersOf(old(waiters), traceID)
      ensures did in World().deliveries && World().deliveries[did] == Delivery(traceID, chs, result)
    {
      chs := TakeWaiters(traceID);
      Note(HandlerNotify(hid, did));
    }

    /** Complete, or fail, or try to complete and then fail. */
    method Finalise(ghost hid: nat, traceID: string, nodeID: string, result: TaskResult) returns (final: TaskResult)
      requires Valid() && hid in World().handlers && World().handlers[hid] == Reported(traceID, nodeID, result)
      modifies this`run, sched
      ensures var ok := result.success && CompleteReplyFor(old(World()).sched.store, traceID, nodeID) == CompleteOk;
        && Valid() && final == result.(success := ok)
        && sched.model == Handled(cfg, old(sched.model), traceID, nodeID, result)
        && Extends(old(run), run, FinaliseSteps(hid, result.success, ok))
      ensures hid in World().handlers && World().handlers[hid] == Reporting(traceID, final)
      ensures World().deliveries == old(World()).deliveries
    {
      final := result;
      if final.success {
        var ok := CompleteTask(hid, traceID, nodeID, final);
        if !ok {
          ghost var before := run;
          final := final.(success := false);
          FailTask(hid, traceID, nodeID, final);
          ExtendsMore(old(run), before, run, [HandlerComplete(hid)], [HandlerFail(hid)]);
        }
      } else {
        FailTask(hid, traceID, nodeID, final);
      }
    }

    // ---- what reaches the server besides requests and results ----

    /** A scheduler step that leaves requests, books and waiters alone. */
    ghost method NoteScript(s: Step, script: Sched.Step)
      requires IsRun(cfg, run) && (s == System(script) || (s.NodeFetch? && script == Sched.DoFetch(s.trace, s.node)))
      requires s.System? ==> script.DoTick? || script.DoPass?
      modifies this`run
      ensures IsRun(cfg, run) && Extends(old(run), run, [s])
      ensures run.Last() == old(run).Last().(sched := Sched.Next(cfg, old(run).Last().sched, script))
    {
      Note(s);
    }

    /** HandleFetchTask: the answer goes back to the node as TASK_ASSIGNED or TASK_GONE. */
    method HandleFetchTask(traceID: string, nodeID: string) returns (assignment: Option<(string, string)>)
      requires Valid()
      modifies this`run, sched
      ensures Valid() && Extends(old(run), run, [NodeFetch(traceID, nodeID)])
      ensures sched.model == Fetch(cfg, old(sched.model), traceID, nodeID)
      ensures var s := old(sched.model);
        && (assignment.Some? <==> StatusIs(s, traceID, Pending))
        && (assignment.Some? ==> assignment.value == (s.tasks[traceID].slot.gallery, s.tasks[traceID].galleryKey))
      ensures assignment.Some? ==>
                && traceID in World().requests && World().requests[traceID].created
                && assignment.value == (World().requests[traceID].gallery, World().requests[traceID].galleryKey)
    {
      if StatusIs(sched.model, traceID, Pending) { Offers.ClaimsGetTheCreatorsGallery(cfg, run, traceID); }
      NoteScript(NodeFetch(traceID, nodeID), Sched.DoFetch(traceID, nodeID));
      assignment := sched.FetchTask(traceID, nodeID);
    }

    /** A top-up or a check-in reward. */
    method Deposit(userID: string, amount: int)
      requires Valid() && 0 <= amount
      modifies this`run, balanceSvc
      ensures Valid() && Extends(old(run), run, [MakeDeposit(userID, amount)])
    {
      balanceSvc.Deposit(userID, amount);
      Note(MakeDeposit(userID, amount));
    }

    method PassSecond()
      requires Valid()
      modifies this`run, sched
      ensures Valid() && Extends(old(run), run, [System(Sched.DoTick)])
    {
      NoteScript(System(Sched.DoTick), Sched.DoTick);
      sched.PassSecond();
    }

    /** One firing of the watchdog's ticker, uninterrupted. */
    method ReclaimExpiredTasks()
      requires Valid()
      modifies this`run, sched
      ensures Valid() && Extends(old(run), run, [System(Sched.DoPass)])
    {
      PassIsScan();
      NoteScript(System(Sched.DoPass), Sched.DoPass);
      sched.ReclaimExpiredTasks();
    }

    lemma PassIsScan()
      requires Valid()
      ensures Sched.PassStep(cfg, World().sched).store == Scan.ScanResult(cfg, World().sched.store)
      ensures Sched.PassStep(cfg, World().sched).dog.Idle?
    {
      Money.RunsAreRight(cfg, run, |run.steps|);
      Scan.PassComputesScan(cfg, World().sched);
      Lease.WatchdogKeepsSafe(cfg, World().sched);
      Lease.RunToIdleKeepsSafe(cfg, Sched.WatchdogStep(cfg, World().sched));
    }

    /** Everything proved of runs holds of this object, whatever was called on it. */
    lemma IsRight()
      requires Valid()
      ensures Money.Right(cfg, World())
    {
      Money.RunsAreRight(cfg, run, |run.steps|);
    }

    /** HandleTaskResult, run through: report, finalise, notify every waiter whatever came of it. */
    method HandleTaskResult(ghost hid: nat, ghost did: nat, traceID: string, nodeID: string, result: TaskResult)
      requires Valid() && hid !in World().handlers && did !in World().deliveries
      modifies this, sched
      ensures Valid()
      ensures var normal := Normalised(result);
        var ok := normal.success && CompleteReplyFor(old(World()).sched.store, traceID, nodeID) == CompleteOk;
        && sched.model == Handled(cfg, old(sched.model), traceID, nodeID, normal)
        && Extends(old(run), run,
                   HandlingSteps(hid, did, traceID, nodeID, result, ok, |WaitersOf(old(waiters), traceID)|))
    {
      var normal := ReportResult(hid, traceID, nodeID, result);
      ghost var r1, s1 := run, [Report(hid, traceID, nodeID, result)];
      var final := Finalise(hid, traceID, nodeID, normal);
      ghost var r2, s2 := run, FinaliseSteps(hid, normal.success, final.success);
      ExtendsMore(old(run), r1, r2, s1, s2);
      var chs := NotifyResult(hid, traceID, final, did);
      ghost var r3, s3 := run, [HandlerNotify(hid, did)];
      ExtendsMore(old(run), r2, r3, s1 + s2, s3);
      Deliver(did, traceID, chs, final);
      ExtendsMore(old(run), r3, run, s1 + s2 + s3, Sends(did, |chs|));
    }

    /** The uuid of a request that has not published is not on the log. */
    lemma Fresh(rid: string)
      requires Valid() && Enabled(World(), rid, Publish)
      ensures Sched.FreshTrace(World().sched, rid)
    {
      Money.RunsAreRight(cfg, run, |run.steps|);
      assert Truth.RequestTrue(World().sched.log, rid, World().requests[rid]);
    }
  }
}
