/**
 * The whole server as one machine: any number of ParseGallery requests, each a goroutine with its own
 * program counter, interleaved with node reports, deliveries, deposits, the watchdog and the clock.
 * A step that is not possible leaves the world unchanged, so every sequence of steps is a run.
 */
module GalleryMachine {
  import opened Keys
  import opened TaskStore
  import opened Ledger
  import Sched = SchedulerMachine
  import Results = ResultWaiter

  type TaskResult = Results.TaskResult

  datatype SetupError = Unresolved | Insufficient | FreezeFailed | CostFailed | NoNodes

  datatype Reply = DoneReply(gpCost: int, url: string) | ErrorReply | CancelReply

  /** Where a ParseGallery goroutine is; each constructor names what it does next. */
  datatype Pc =
    | Publishing
    | Unpublished                    // publishing failed, and the request with it
    | Hit(url: string)               // answered from the cache, without registering
    | Registering
    | Resolving                      // setupCreatedTask starts here
    | Freezing
    | Costing
    | Announcing                     // and ends here
    | Rejecting(error: SetupError)
    | Notifying(error: SetupError)
    | Repaying(error: SetupError)
    | Awaiting                       // the select
    | Settling(result: TaskResult)
    | Refunding(reply: Reply)
    | Leaving(reply: Reply)          // the deferred Unregister
    | Gone(reply: Reply)

  /** A request, named by the uuid it generated, with its local variables and its channel. */
  datatype Request = Request(user: string, gallery: string, galleryKey: string, force: bool, pc: Pc,
                             trace: string, created: bool, estimatedGP: int,
                             inbox: Option<TaskResult>, heard: nat)

  /** A HandleTaskResult goroutine. */
  datatype Handler =
    | Completing(trace: string, node: string, result: TaskResult)
    | Failing(trace: string, node: string, result: TaskResult)
    | Reporting(trace: string, result: TaskResult)

  /** A Notify that has taken its slice and is still sending. */
  datatype Delivery = Delivery(trace: string, chs: seq<string>, result: TaskResult)

  datatype World = World(sched: Sched.Machine, books: Books, waiters: map<string, seq<string>>,
                         requests: map<string, Request>, handlers: map<nat, Handler>, deliveries: map<nat, Delivery>,
                         announced: set<string>, notified: map<string, TaskResult>, drops: nat)

  const Start := World(Sched.Start, EmptyBooks, map[], map[], map[], map[], {}, map[], 0)

  /** What a request's goroutine does when it is scheduled; the arguments are what its surroundings answer. */
  datatype Move =
    | Publish
    | PublishFails
    | Register
    | Resolve(quota: Option<int>)
    | FreezeEstimate(answered: bool)
    | Cost(freeTier: bool, ok: bool)
    | Announce(sent: bool)
    | Reject(answered: bool)
    | NotifyRejected(did: nat)
    | Repay(ok: bool)
    | Receive
    | Timeout
    | Cancel
    | Settle(ok: bool)
    | RefundEstimate(ok: bool)
    | Unregister

  datatype Step =
    | Arrive(rid: string, user: string, gallery: string, galleryKey: string, force: bool)
    | Act(rid: string, move: Move)
    | Deliver(did: nat)
    | Report(hid: nat, trace: string, node: string, result: TaskResult)
    | HandlerComplete(hid: nat)
    | HandlerFail(hid: nat)
    | HandlerNotify(hid: nat, did: nat)
    | NodeFetch(trace: string, node: string)
    | MakeDeposit(user: string, amount: int)
    | System(step: Sched.Step)

  /** The answer is decided. */
  predicate Ended(pc: Pc) {
    pc.Leaving? || pc.Gone?
  }

  function SlotOf(r: Request): Slot {
    Slot(r.user, r.gallery)
  }

  // ---- ResultWaiter, on request names instead of channels ----

  function WaitersOf(waiters: map<string, seq<string>>, t: string): seq<string> {
    if t in waiters then waiters[t] else []
  }

  function Joined(waiters: map<string, seq<string>>, t: string, rid: string): map<string, seq<string>> {
    waiters[t := WaitersOf(waiters, t) + [rid]]
  }

  function Left(waiters: map<string, seq<string>>, t: string, rid: string): map<string, seq<string>> {
    var rest := RemoveFirst(WaitersOf(waiters, t), rid);
    if rest == [] then waiters - {t} else waiters[t := rest]
  }

  /** The locked half of Notify; notified keeps the first result of each trace. */
  function Notify(w: World, t: string, result: TaskResult, did: nat): World {
    w.(waiters := w.waiters - {t}, deliveries := w.deliveries[did := Delivery(t, WaitersOf(w.waiters, t), result)],
       notified := if t in w.notified then w.notified else w.notified[t := result])
  }

  /** select { case ch <- result: default: } on one request's channel. */
  function Send(w: World, rid: string, result: TaskResult): World {
    if rid !in w.requests then w
    else
      var r := w.requests[rid];
      if r.inbox.Some? then w.(drops := w.drops + 1)
      else w.(requests := w.requests[rid := r.(inbox := Some(result), heard := r.heard + 1)])
  }

  /** One send of a Notify in progress. */
  function DeliverStep(w: World, did: nat): World
    requires did in w.deliveries
  {
    var d := w.deliveries[did];
    if d.chs == [] then w.(deliveries := w.deliveries - {did})
    else Send(w.(deliveries := w.deliveries[did := d.(chs := d.chs[1..])]), d.chs[0], d.result)
  }

  /** The result a request makes up for its collapsed waiters when its setup fails. */
  const Failure := Results.TaskResult.TaskResult(false, "", 0)

  // ---- ParseGallery ----

  /** Is the request's goroutine where this move can be made? A resolved quota is at least 1 GP. */
  predicate Enabled(w: World, rid: string, move: Move) {
    rid in w.requests &&
    var pc := w.requests[rid].pc;
    match move
    case Publish => pc.Publishing?
    case PublishFails => pc.Publishing?
    case Register => pc.Registering?
    case Resolve(quota) => pc.Resolving? && (quota.Some? ==> 1 <= quota.value)
    case FreezeEstimate(_) => pc.Freezing?
    case Cost(_, _) => pc.Costing?
    case Announce(_) => pc.Announcing?
    case Reject(_) => pc.Rejecting?
    case NotifyRejected(did) => pc.Notifying? && did !in w.deliveries
    case Repay(_) => pc.Repaying?
    case Receive => pc.Awaiting? && w.requests[rid].inbox.Some?
    case Timeout => pc.Awaiting?
    case Cancel => pc.Awaiting?
    case Settle(_) => pc.Settling?
    case RefundEstimate(_) => pc.Refunding?
    case Unregister => pc.Leaving?
  }

  /** Only created tasks with an estimate have anything to refund. */
  function AfterWaiting(r: Request, reply: Reply): Pc {
    if !r.created || r.estimatedGP == 0 then Leaving(reply) else Refunding(reply)
  }

  function Received(r: Request, result: TaskResult): Pc {
    if !result.success then AfterWaiting(r, ErrorReply)
    else if r.created then Settling(result)
    else Leaving(DoneReply(0, result.url))
  }

  function Published(r: Request, reply: PublishReply): Request {
    match reply
    case Cached(url) => r.(pc := Hit(url))
    case Collapsed(t) => r.(pc := Registering, trace := t)
    case Created(t) => r.(pc := Registering, trace := t, created := true)
  }

  /** After FreezeGP: no answer from the database, a refusal, or a hold. */
  function Frozen(answered: bool, funded: bool): Pc {
    if !answered then Rejecting(FreezeFailed) else if !funded then Rejecting(Insufficient) else Costing
  }

  /** The goroutine's own variables after the move. */
  function Moved(w: World, rid: string, move: Move): Request
    requires Enabled(w, rid, move)
  {
    var r := w.requests[rid];
    match move
    case Publish => Published(r, PublishReplyFor(w.sched.store, rid, SlotOf(r), r.force))
    case PublishFails => r.(pc := Unpublished)
    case Register => r.(pc := if r.created then Resolving else Awaiting)
    case Resolve(quota) =>
      if quota.None? then r.(pc := Rejecting(Unresolved)) else r.(pc := Freezing, estimatedGP := quota.value)
    case FreezeEstimate(answered) => r.(pc := Frozen(answered, CanFreeze(w.books, r.user, r.estimatedGP)))
    case Cost(_, ok) => r.(pc := if ok then Announcing else Rejecting(CostFailed))
    case Announce(sent) => r.(pc := if sent then Awaiting else Rejecting(NoNodes))
    case Reject(_) => r.(pc := Notifying(r.pc.error))
    case NotifyRejected(_) => r.(pc := Repaying(r.pc.error))
    case Repay(_) => r.(pc := Leaving(ErrorReply))
    case Receive => r.(pc := Received(r, r.inbox.value), inbox := None)
    case Timeout => r.(pc := AfterWaiting(r, ErrorReply))
    case Cancel => r.(pc := AfterWaiting(r, CancelReply))
    case Settle(_) => r.(pc := Leaving(DoneReply(r.estimatedGP, r.pc.result.url)))
    case RefundEstimate(_) => r.(pc := Leaving(r.pc.reply))
    case Unregister => r.(pc := Gone(r.pc.reply))
  }

  /** The script the move runs on Redis, if any. */
  function ScriptOfMove(w: World, rid: string, move: Move): Option<Sched.Step>
    requires Enabled(w, rid, move)
  {
    var r := w.requests[rid];
    match move
    case Publish =>
      if PublishReplyFor(w.sched.store, rid, SlotOf(r), r.force).Created?
      then Some(Sched.DoPublish(rid, SlotOf(r), r.galleryKey, r.force)) else None
    case Cost(free, ok) => if ok then Some(Sched.DoUpdateCost(r.trace, free, r.estimatedGP)) else None
    case Reject(answered) => if answered then Some(Sched.DoFail(r.trace, "", FailMode.Reject)) else None
    case _ => None
  }

  /** "Refund if balance was frozen": the code infers that from the error and the estimate. */
  predicate RefundDue(r: Request)
    requires r.pc.Repaying?
  {
    r.pc.error != Insufficient && r.estimatedGP > 0
  }

  /** What the move does to the ledger; a settlement or refund that fails is rolled back. */
  function Paid(w: World, rid: string, move: Move): Books
    requires Enabled(w, rid, move)
  {
    var r := w.requests[rid];
    match move
    case FreezeEstimate(answered) => if answered then AfterFreeze(w.books, r.user, r.trace, r.estimatedGP) else w.books
    case Settle(ok) => if ok then AfterSettle(w.books, r.user, r.trace, r.estimatedGP) else w.books
    case RefundEstimate(ok) => if ok then AfterRefund(w.books, r.user, r.trace, r.estimatedGP) else w.books
    case Repay(ok) => if RefundDue(r) && ok then AfterRefund(w.books, r.user, r.trace, r.estimatedGP) else w.books
    case _ => w.books
  }

  /** Everything the move changes except Redis. */
  function Advance(w: World, rid: string, move: Move): World
    requires Enabled(w, rid, move)
  {
    var r := w.requests[rid];
    var w1 := w.(requests := w.requests[rid := Moved(w, rid, move)], books := Paid(w, rid, move));
    match move
    case Register => w1.(waiters := Joined(w.waiters, r.trace, rid))
    case Announce(sent) => if sent then w1.(announced := w.announced + {r.trace}) else w1
    case NotifyRejected(did) => Notify(w1, r.trace, Failure, did)
    case Unregister => w1.(waiters := Left(w.waiters, r.trace, rid))
    case _ => w1
  }

  lemma AdvanceParts(w: World, rid: string, move: Move)
    requires Enabled(w, rid, move)
    ensures Advance(w, rid, move).requests == w.requests[rid := Moved(w, rid, move)]
    ensures Advance(w, rid, move).books == Paid(w, rid, move)
    ensures w.requests[rid].created ==> Moved(w, rid, move).created
  {
  }

  // ---- HandleTaskResult ----

  /** A success without a URL counts as a failure. */
  function Normalised(result: TaskResult): TaskResult {
    if result.success && result.url == "" then result.(success := false) else result
  }

  function Reported(t: string, node: string, result: TaskResult): Handler {
    if result.success then Completing(t, node, result) else Failing(t, node, result)
  }

  /** After CompleteTask: a refusal turns the result into a failure and goes on to FailTask. */
  function AfterComplete(s: Store, h: Handler): Handler
    requires h.Completing?
  {
    if CompleteReplyFor(s, h.trace, h.node) == CompleteOk then Reporting(h.trace, h.result)
    else Failing(h.trace, h.node, h.result.(success := false))
  }

  // ---- the machine ----

  function Arrived(user: string, gallery: string, galleryKey: string, force: bool): Request {
    Request(user, gallery, galleryKey, force, Publishing, "", false, 0, None, 0)
  }

  ghost predicate MayArrive(w: World, rid: string) {
    rid !in w.requests && Sched.FreshTrace(w.sched, rid)
  }

  /** The scheduler step inside a server step: the server touches Redis in no other way. */
  function ScriptOf(w: World, s: Step): Option<Sched.Step> {
    match s
    case Act(rid, move) => if Enabled(w, rid, move) then ScriptOfMove(w, rid, move) else None
    case HandlerComplete(hid) =>
      if hid in w.handlers && w.handlers[hid].Completing?
      then Some(Sched.DoComplete(w.handlers[hid].trace, w.handlers[hid].node, w.handlers[hid].result.url)) else None
    case HandlerFail(hid) =>
      if hid in w.handlers && w.handlers[hid].Failing?
      then Some(Sched.DoFail(w.handlers[hid].trace, w.handlers[hid].node, FailMode.Fail)) else None
    case NodeFetch(t, node) => Some(Sched.DoFetch(t, node))
    case System(step) => if step.DoTick? || step.DoWatchdog? || step.DoPass? then Some(step) else None
    case _ => None
  }

  ghost function SchedAfter(c: Config, m: Sched.Machine, script: Option<Sched.Step>): Sched.Machine {
    if script.Some? then Sched.Next(c, m, script.value) else m
  }

  /** Everything a step changes except Redis. */
  ghost function Locally(w: World, s: Step): World {
    match s
    case Arrive(rid, u, g, gk, force) =>
      if MayArrive(w, rid) then w.(requests := w.requests[rid := Arrived(u, g, gk, force)])
      else w
    case Act(rid, move) => if Enabled(w, rid, move) then Advance(w, rid, move) else w
    case Deliver(did) => if did in w.deliveries then DeliverStep(w, did) else w
    case Report(hid, t, node, result) =>
      if hid !in w.handlers then w.(handlers := w.handlers[hid := Reported(t, node, Normalised(result))]) else w
    case HandlerComplete(hid) =>
      if hid in w.handlers && w.handlers[hid].Completing?
      then w.(handlers := w.handlers[hid := AfterComplete(w.sched.store, w.handlers[hid])]) else w
    case HandlerFail(hid) =>
      if hid in w.handlers && w.handlers[hid].Failing?
      then w.(handlers := w.handlers[hid := Reporting(w.handlers[hid].trace, w.handlers[hid].result)]) else w
    case HandlerNotify(hid, did) =>
      if hid in w.handlers && w.handlers[hid].Reporting? && did !in w.deliveries
      then Notify(w.(handlers := w.handlers - {hid}), w.handlers[hid].trace, w.handlers[hid].result, did) else w
    case MakeDeposit(u, amount) => if 0 <= amount then w.(books := AfterDeposit(w.books, u, amount)) else w
    case _ => w
  }

  ghost function Next(c: Config, w: World, s: Step): World {
    Locally(w, s).(sched := SchedAfter(c, w.sched, ScriptOf(w, s)))
  }

  /** The request is there, and as it was but for its channel. */
  predicate OnlyChannel(before: map<string, Request>, after: map<string, Request>, rid: string)
    requires rid in before
  {
    rid in after && after[rid] == before[rid].(inbox := after[rid].inbox, heard := after[rid].heard)
  }

  /** Seen from one request, all that a step not its own can do is fill its channel, or let it arrive. */
  lemma OthersLeaveRequest(w: World, s: Step, rid: string)
    requires s.Act? ==> s.rid != rid
    ensures rid in w.requests ==> OnlyChannel(w.requests, Locally(w, s).requests, rid)
    ensures rid in Locally(w, s).requests && rid !in w.requests ==>
              s.Arrive? && Locally(w, s).requests[rid] == Arrived(s.user, s.gallery, s.galleryKey, s.force)
  {
    if s.Act? {
      if Enabled(w, s.rid, s.move) { AdvanceParts(w, s.rid, s.move); }
    } else if s.Deliver? {
      DeliveryLeavesRequest(w, s.did, rid);
    }
  }

  lemma DeliveryLeavesRequest(w: World, did: nat, rid: string)
    ensures rid in w.requests ==> OnlyChannel(w.requests, Locally(w, Deliver(did)).requests, rid)
    ensures rid in Locally(w, Deliver(did)).requests ==> rid in w.requests
  {
  }

  /** A finite behaviour of the whole server. */
  datatype Run = Run(states: seq<World>, steps: seq<Step>) {
    function Last(): World
      requires states != []
    {
      states[|states| - 1]
    }
  }

  ghost predicate StepAt(c: Config, r: Run, i: nat)
    requires i < |r.steps| && |r.states| == |r.steps| + 1
  {
    r.states[i + 1] == Next(c, r.states[i], r.steps[i])
  }

  ghost predicate IsRun(c: Config, r: Run) {
    && |r.states| == |r.steps| + 1
    && r.states[0] == Start
    && forall i :: 0 <= i < |r.steps| ==> StepAt(c, r, i)
  }

  const NoSteps := Run([Start], [])

  /** The run so far, and one step more. */
  ghost function Extend(c: Config, r: Run, s: Step): Run
    requires r.states != []
  {
    Run(r.states + [Next(c, r.Last(), s)], r.steps + [s])
  }

  lemma ExtendIsRun(c: Config, r: Run, s: Step)
    requires IsRun(c, r)
    ensures IsRun(c, Extend(c, r, s)) && Extend(c, r, s).Last() == Next(c, r.Last(), s)
  {
    var x := Extend(c, r, s);
    forall i | 0 <= i < |x.steps| ensures StepAt(c, x, i) {
      if i < |r.steps| { assert StepAt(c, r, i); }
    }
  }
}
