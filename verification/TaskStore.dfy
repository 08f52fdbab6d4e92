/**
 * The scheduler's state as typed maps, and what each atomic script does to it.
 * Every entry carries the absolute second at which it expires; the store never holds an expired one.
 */
module TaskStore {
  import opened Keys

  datatype Option<+T> = None | Some(value: T)

  datatype Status = Pending | Processing | Completed | Failed

  datatype Task =
    | Task(status: Status, node: string, slot: Slot, galleryKey: string, force: bool,
           freeTier: bool, estimatedGP: int, expiresAt: int)
      /** What HSET leaves when it runs on an expired task: no status, no time to live. */
    | Bare(freeTier: bool, estimatedGP: int)

  datatype Sentinel = Sentinel(trace: string, expiresAt: int)
  datatype CacheEntry = CacheEntry(url: string, expiresAt: int)

  datatype Config_ = Config(lease: int, cacheTTL: int)
  type Config = c: Config_ | 1 <= c.lease && 1 <= c.cacheTTL witness Config(1, 1)

  const FINISHED_TTL := 300
  const SCAN_LIMIT := 100

  datatype Store = Store(now: int, tasks: map<string, Task>, sentinels: map<Slot, Sentinel>,
                         cache: map<Slot, CacheEntry>, queue: seq<string>)

  const EmptyStore := Store(0, map[], map[], map[], [])

  predicate HasStatus(s: Store, t: string) {
    t in s.tasks && s.tasks[t].Task?
  }

  predicate StatusIs(s: Store, t: string, status: Status) {
    HasStatus(s, t) && s.tasks[t].status == status
  }

  predicate Live(s: Store, t: string) {
    StatusIs(s, t, Pending) || StatusIs(s, t, Processing)
  }

  // ---- list commands ----

  /** LREM key 0 t: every occurrence goes. */
  function RemoveAll(q: seq<string>, t: string): (r: seq<string>)
    ensures multiset(r) == multiset(q)[t := 0]
  {
    if q == [] then []
    else
      assert q == [q[0]] + q[1..];
      (if q[0] == t then [] else [q[0]]) + RemoveAll(q[1..], t)
  }

  /** LREM key 1 t: the occurrence nearest the head goes. */
  function RemoveFirst<T(==)>(q: seq<T>, t: T): (r: seq<T>)
    ensures multiset(r) == multiset(q) - multiset{t}
  {
    if q == [] then []
    else
      assert q == [q[0]] + q[1..];
      if q[0] == t then q[1..] else [q[0]] + RemoveFirst(q[1..], t)
  }

  lemma RemoveFirstSkips<T>(u: T, tail: seq<T>, t: T)
    requires u != t
    ensures RemoveFirst([u] + tail, t) == [u] + RemoveFirst(tail, t)
  {
    assert ([u] + tail)[1..] == tail;
  }

  lemma HeadApart<T>(q: seq<T>, rest: seq<T>)
    requires q != []
    ensures q + rest == [q[0]] + (q[1..] + rest)
  {
  }

  lemma {:induction false} RemoveFirstAfter<T>(q: seq<T>, t: T, rest: seq<T>)
    requires t !in q
    ensures RemoveFirst(q + ([t] + rest), t) == q + rest
  {
    if q == [] {
      assert q + ([t] + rest) == [t] + rest && ([t] + rest)[1..] == rest && q + rest == rest;
    } else {
      RemoveFirstAfter(q[1..], t, rest);
      RemoveFirstSkips(q[0], q[1..] + ([t] + rest), t);
      HeadApart(q, [t] + rest);
      HeadApart(q, rest);
    }
  }

  lemma {:induction false} AbsentStays<T>(q: seq<T>, t: T)
    requires t !in q
    ensures RemoveFirst(q, t) == q
  {
    if q != [] { AbsentStays(q[1..], t); }
  }

  // ---- LuaPublishTask ----

  datatype PublishReply = Created(trace: string) | Collapsed(trace: string) | Cached(url: string)

  function PublishReplyFor(s: Store, trace: string, slot: Slot, force: bool): PublishReply {
    if !force && slot in s.cache then Cached(s.cache[slot].url)
    else if slot in s.sentinels then Collapsed(s.sentinels[slot].trace)
    else Created(trace)
  }

  function Publish(c: Config, s: Store, trace: string, slot: Slot, galleryKey: string, force: bool): Store {
    if PublishReplyFor(s, trace, slot, force) != Created(trace) then s
    else s.(
      tasks := s.tasks[trace := Task(Pending, "", slot, galleryKey, force, false, 0, s.now + 3 * c.lease)],
      sentinels := s.sentinels[slot := Sentinel(trace, s.now + 2 * c.lease)],
      queue := s.queue + [trace])
  }

  // ---- LuaFetchTask ----

  /** EXPIRE on a sentinel: no effect when the key is gone. */
  function ExpireSentinel(s: map<Slot, Sentinel>, slot: Slot, at: int): map<Slot, Sentinel> {
    if slot in s then s[slot := s[slot].(expiresAt := at)] else s
  }

  function Fetch(c: Config, s: Store, t: string, node: string): Store {
    if !StatusIs(s, t, Pending) then s
    else s.(
      tasks := s.tasks[t := s.tasks[t].(status := Processing, node := node, expiresAt := s.now + c.lease)],
      sentinels := ExpireSentinel(s.sentinels, s.tasks[t].slot, s.now + c.lease))
  }

  // ---- LuaCompleteTask ----

  datatype CompleteReply = CompleteOk | CompleteInvalid | CompleteMismatch

  function CompleteReplyFor(s: Store, t: string, node: string): CompleteReply {
    if !StatusIs(s, t, Processing) then CompleteInvalid
    else if s.tasks[t].node != node then CompleteMismatch
    else CompleteOk
  }

  function Complete(c: Config, s: Store, t: string, node: string, url: string): Store {
    if CompleteReplyFor(s, t, node) != CompleteOk then s
    else
      var slot := s.tasks[t].slot;
      s.(tasks := s.tasks[t := s.tasks[t].(status := Completed, expiresAt := s.now + FINISHED_TTL)],
         cache := s.cache[slot := CacheEntry(url, s.now + c.cacheTTL)],
         sentinels := s.sentinels - {slot},
         queue := RemoveAll(s.queue, t))
  }

  // ---- LuaFailTask ----

  datatype FailMode = Fail | Reject
  datatype FailReply = FailOk | FailGone | FailInvalid | FailNeedNode | FailMismatch

  function FailReplyFor(s: Store, t: string, node: string): FailReply {
    if !HasStatus(s, t) then FailGone
    else if !Live(s, t) then FailInvalid
    else if s.tasks[t].status == Processing && node == "" then FailNeedNode
    else if s.tasks[t].status == Processing && s.tasks[t].node != node then FailMismatch
    else FailOk
  }

  function Finalize(s: Store, t: string, node: string, mode: FailMode): Store {
    if FailReplyFor(s, t, node) != FailOk then s
    else
      s.(tasks := if mode == Reject then s.tasks - {t}
                  else s.tasks[t := s.tasks[t].(status := Failed, expiresAt := s.now + FINISHED_TTL)],
         sentinels := s.sentinels - {s.tasks[t].slot},
         queue := RemoveAll(s.queue, t))
  }

  // ---- LuaReclaimTask ----

  function Reclaim(c: Config, s: Store, t: string): Store {
    if !StatusIs(s, t, Processing) then s
    else s.(
      tasks := s.tasks[t := s.tasks[t].(status := Pending, node := "", expiresAt := s.now + 3 * c.lease)],
      queue := s.queue + [t],
      sentinels := s.sentinels[s.tasks[t].slot := Sentinel(t, s.now + 2 * c.lease)])
  }

  // ---- UpdateTaskCost ----

  function UpdateCost(s: Store, t: string, freeTier: bool, estimatedGP: int): Store {
    s.(tasks := s.tasks[t := if t in s.tasks then s.tasks[t].(freeTier := freeTier, estimatedGP := estimatedGP)
                             else Bare(freeTier, estimatedGP)])
  }

  // ---- time ----

  predicate TaskLasts(task: Task, now: int) {
    task.Bare? || now < task.expiresAt
  }

  /** One second passes; whatever has reached its deadline is gone. */
  function Tick(s: Store): Store {
    var now := s.now + 1;
    Store(now,
          map t | t in s.tasks && TaskLasts(s.tasks[t], now) :: s.tasks[t],
          map k | k in s.sentinels && now < s.sentinels[k].expiresAt :: s.sentinels[k],
          map k | k in s.cache && now < s.cache[k].expiresAt :: s.cache[k],
          s.queue)
  }

  // ---- what the watchdog reads ----

  /** PROCESSING with less than half the lease left: TTL > 0 and TTL < lease / 2. */
  predicate Expiring(c: Config, s: Store, t: string) {
    StatusIs(s, t, Processing) && 0 < s.tasks[t].expiresAt - s.now < c.lease / 2
  }
}
