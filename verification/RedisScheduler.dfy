/** Redis as the scripts see it: one flat map from key strings to values, with optional deadlines. */
module Redis {
  import opened TaskStore

  /** The fields of a task hash; a missing field reads as nil. */
  datatype Hash = Hash(galleryId: Option<string>, galleryKey: Option<string>, collapseKey: Option<string>,
                       cacheKey: Option<string>, status: Option<string>, force: Option<string>,
                       freeTier: Option<string>, estimatedGP: Option<int>, nodeId: Option<string>)

  const EmptyHash := Hash(None, None, None, None, None, None, None, None, None)

  datatype Value = HashValue(hash: Hash) | Text(text: string) | ListValue(items: seq<string>)
  datatype Entry = Entry(value: Value, expiresAt: Option<int>)
  type Db = map<string, Entry>

  function Lookup(db: Db, key: string): Option<Entry> {
    if key in db then Some(db[key]) else None
  }

  function Deadline(db: Db, key: string): Option<int> {
    if key in db then db[key].expiresAt else None
  }

  function HashAt(db: Db, key: string): Hash {
    if key in db && db[key].value.HashValue? then db[key].value.hash else EmptyHash
  }

  /** HSET / HMSET: the time to live, if any, stays. */
  function PutHash(db: Db, key: string, hash: Hash): Db {
    db[key := Entry(HashValue(hash), Deadline(db, key))]
  }

  function Expire(db: Db, key: string, at: int): Db {
    if key in db then db[key := db[key].(expiresAt := Some(at))] else db
  }

  function GetText(db: Db, key: string): Option<string> {
    if key in db && db[key].value.Text? then Some(db[key].value.text) else None
  }

  function SetEx(db: Db, key: string, text: string, at: int): Db {
    db[key := Entry(Text(text), Some(at))]
  }

  function Del(db: Db, key: string): Db {
    db - {key}
  }

  function ListAt(db: Db, key: string): seq<string> {
    if key in db && db[key].value.ListValue? then db[key].value.items else []
  }

  /** A list that becomes empty is removed. */
  function PutList(db: Db, key: string, items: seq<string>): Db {
    if items == [] then db - {key} else db[key := Entry(ListValue(items), Deadline(db, key))]
  }

  function TTL(db: Db, key: string, now: int): int {
    if key !in db then -2 else if db[key].expiresAt.None? then -1 else db[key].expiresAt.value - now
  }

  predicate Unexpired(e: Entry, now: int) {
    e.expiresAt.None? || now < e.expiresAt.value
  }

  function Purge(db: Db, now: int): Db {
    map k | k in db && Unexpired(db[k], now) :: db[k]
  }
}

/** When a flat database represents a typed store, and how single writes carry over. */
module Representation {
  import opened Keys
  import opened TaskStore
  import opened Redis

  function StatusText(s: Status): string {
    match s
    case Pending => "PENDING"
    case Processing => "PROCESSING"
    case Completed => "COMPLETED"
    case Failed => "FAILED"
  }

  function Flag(b: bool): string {
    if b then "1" else "0"
  }

  function SentinelKey(k: Slot): string {
    CollapsingKey(k.user, k.gallery)
  }

  function CachedKey(k: Slot): string {
    CacheKey(k.user, k.gallery)
  }

  function EncodeTask(task: Task): Entry {
    match task
    case Task(status, node, slot, gk, force, free, gp, at) =>
      Entry(HashValue(Hash(Some(slot.gallery), Some(gk), Some(SentinelKey(slot)), Some(CachedKey(slot)),
                           Some(StatusText(status)), Some(Flag(force)), Some(Flag(free)), Some(gp), Some(node))),
            Some(at))
    case Bare(free, gp) =>
      Entry(HashValue(EmptyHash.(freeTier := Some(Flag(free)), estimatedGP := Some(gp))), None)
  }

  function TaskEntry(s: Store, t: string): Option<Entry> {
    if t in s.tasks then Some(EncodeTask(s.tasks[t])) else None
  }

  function SentinelEntry(s: Store, k: Slot): Option<Entry> {
    if k in s.sentinels then Some(Entry(Text(s.sentinels[k].trace), Some(s.sentinels[k].expiresAt))) else None
  }

  function CacheEntryOf(s: Store, k: Slot): Option<Entry> {
    if k in s.cache then Some(Entry(Text(s.cache[k].url), Some(s.cache[k].expiresAt))) else None
  }

  function QueueEntry(s: Store): Option<Entry> {
    if s.queue == [] then None else Some(Entry(ListValue(s.queue), None))
  }

  ghost predicate GoodSlot(k: Slot) {
    ColonFree(k.user)
  }

  ghost predicate GoodSlots(s: Store) {
    && (forall t :: t in s.tasks && s.tasks[t].Task? ==> GoodSlot(s.tasks[t].slot))
    && (forall k :: k in s.sentinels || k in s.cache ==> GoodSlot(k))
  }

  /** Reading any task, sentinel, cache or queue key of the database gives what the store holds there. */
  ghost predicate Represents(db: Db, s: Store) {
    && GoodSlots(s)
    && (forall t :: Lookup(db, TaskKey(t)) == TaskEntry(s, t))
    && (forall k :: GoodSlot(k) ==> Lookup(db, SentinelKey(k)) == SentinelEntry(s, k))
    && (forall k :: GoodSlot(k) ==> Lookup(db, CachedKey(k)) == CacheEntryOf(s, k))
    && Lookup(db, PENDING_QUEUE_KEY) == QueueEntry(s)
  }

  // ---- key strings never clash ----

  lemma TaskKeysApart(t: string, u: string, k: Slot)
    requires GoodSlot(k)
    ensures TaskKey(t) == TaskKey(u) <==> t == u
    ensures TaskKey(t) != SentinelKey(k) && TaskKey(t) != CachedKey(k) && TaskKey(t) != PENDING_QUEUE_KEY
  {
    ParseInvertsBuilders(t, k.user, k.gallery);
    ParseInvertsBuilders(u, k.user, k.gallery);
  }

  lemma SlotKeysApart(j: Slot, k: Slot)
    requires GoodSlot(j) && GoodSlot(k)
    ensures SentinelKey(j) == SentinelKey(k) <==> j == k
    ensures CachedKey(j) == CachedKey(k) <==> j == k
    ensures SentinelKey(j) != CachedKey(k)
    ensures SentinelKey(j) != PENDING_QUEUE_KEY && CachedKey(j) != PENDING_QUEUE_KEY
  {
    ParseInvertsBuilders("", j.user, j.gallery);
    ParseInvertsBuilders("", k.user, k.gallery);
  }

  // ---- one write at a time ----

  lemma TaskWritten(db: Db, s: Store, t: string, task: Task)
    requires Represents(db, s) && (task.Task? ==> GoodSlot(task.slot))
    ensures Represents(db[TaskKey(t) := EncodeTask(task)], s.(tasks := s.tasks[t := task]))
  {
    forall u, k | GoodSlot(k) ensures TaskKey(t) == TaskKey(u) <==> t == u
                              ensures TaskKey(t) != SentinelKey(k) && TaskKey(t) != CachedKey(k)
                              ensures TaskKey(t) != PENDING_QUEUE_KEY {
      TaskKeysApart(t, u, k);
    }
    assert GoodSlot(Slot("", ""));
  }

  lemma TaskDeleted(db: Db, s: Store, t: string)
    requires Represents(db, s)
    ensures Represents(Del(db, TaskKey(t)), s.(tasks := s.tasks - {t}))
  {
    forall u, k | GoodSlot(k) ensures TaskKey(t) == TaskKey(u) <==> t == u
                              ensures TaskKey(t) != SentinelKey(k) && TaskKey(t) != CachedKey(k)
                              ensures TaskKey(t) != PENDING_QUEUE_KEY {
      TaskKeysApart(t, u, k);
    }
    assert GoodSlot(Slot("", ""));
  }

  lemma SentinelWritten(db: Db, s: Store, k: Slot, sentinel: Sentinel)
    requires Represents(db, s) && GoodSlot(k)
    ensures Represents(SetEx(db, SentinelKey(k), sentinel.trace, sentinel.expiresAt),
                       s.(sentinels := s.sentinels[k := sentinel]))
  {
    forall t ensures TaskKey(t) != SentinelKey(k) { TaskKeysApart(t, t, k); }
    forall j | GoodSlot(j) ensures (SentinelKey(j) == SentinelKey(k) <==> j == k) && CachedKey(j) != SentinelKey(k) {
      SlotKeysApart(j, k);
      SlotKeysApart(k, j);
    }
    SlotKeysApart(k, k);
  }

  lemma SentinelDeleted(db: Db, s: Store, k: Slot)
    requires Represents(db, s) && GoodSlot(k)
    ensures Represents(Del(db, SentinelKey(k)), s.(sentinels := s.sentinels - {k}))
  {
    forall t ensures TaskKey(t) != SentinelKey(k) { TaskKeysApart(t, t, k); }
    forall j | GoodSlot(j) ensures (SentinelKey(j) == SentinelKey(k) <==> j == k) && CachedKey(j) != SentinelKey(k) {
      SlotKeysApart(j, k);
      SlotKeysApart(k, j);
    }
    SlotKeysApart(k, k);
  }

  lemma CacheWritten(db: Db, s: Store, k: Slot, entry: CacheEntry)
    requires Represents(db, s) && GoodSlot(k)
    ensures Represents(SetEx(db, CachedKey(k), entry.url, entry.expiresAt), s.(cache := s.cache[k := entry]))
  {
    forall t ensures TaskKey(t) != CachedKey(k) { TaskKeysApart(t, t, k); }
    forall j | GoodSlot(j) ensures (CachedKey(j) == CachedKey(k) <==> j == k) && SentinelKey(j) != CachedKey(k) {
      SlotKeysApart(j, k);
    }
    SlotKeysApart(k, k);
  }

  lemma QueueWritten(db: Db, s: Store, items: seq<string>)
    requires Represents(db, s)
    ensures Represents(PutList(db, PENDING_QUEUE_KEY, items), s.(queue := items))
  {
    assert GoodSlot(Slot("", ""));
    forall t ensures TaskKey(t) != PENDING_QUEUE_KEY { TaskKeysApart(t, t, Slot("", "")); }
    forall j | GoodSlot(j) ensures SentinelKey(j) != PENDING_QUEUE_KEY && CachedKey(j) != PENDING_QUEUE_KEY {
      SlotKeysApart(j, j);
    }
  }

  /** Expiry acts alike on both sides. */
  lemma Purged(db: Db, s: Store, now: int)
    requires Represents(db, s) && now == s.now + 1
    ensures Represents(Purge(db, now), Tick(s)) && Tick(s).now == now
  {
  }
}

/** scheduler.go and lua.go over the flat keyspace, each script transcribed command by command. */
module RedisScheduler {
  import opened Keys
  import opened TaskStore
  import opened Redis
  import opened Representation
  import opened WatchdogPass

  class Scheduler {
    const cfg: Config
    var now: int
    var db: Db
    ghost var model: Store

    /** The database represents the typed store, and both read the same clock. */
    ghost predicate Valid()
      reads this
    {
      model.now == now && Represents(db, model)
    }

    constructor (cfg: Config)
      ensures Valid() && this.cfg == cfg && model == EmptyStore
    {
      this.cfg := cfg;
      now, db := 0, map[];
      model := EmptyStore;
    }

    method PublishTask(traceID: string, userID: string, galleryID: string, galleryKey: string, force: bool)
      returns (reply: PublishReply)
      requires Valid() && ColonFree(userID)
      modifies this`db, this`model
      ensures Valid()
      ensures var slot := Slot(userID, galleryID);
        && reply == PublishReplyFor(old(model), traceID, slot, force)
        && model == Publish(cfg, old(model), traceID, slot, galleryKey, force)
    {
      var collapseKey, cacheKey := CollapsingKey(userID, galleryID), CacheKey(userID, galleryID);
      ghost var slot := Slot(userID, galleryID);
      if !force {
        var cached := ReadCached(cacheKey, slot);
        if cached.Some? { return Cached(cached.value); }
      }
      var existing := ReadSentinel(collapseKey, slot);
      if existing.Some? { return Collapsed(existing.value); }
      CreateAll(traceID, galleryID, galleryKey, collapseKey, cacheKey, force, slot);
      reply := Created(traceID);
    }

    /** The writes of LuaPublishTask: the hash, the sentinel and the queue entry. */
    method CreateAll(traceID: string, galleryID: string, galleryKey: string, collapseKey: string, cacheKey: string,
                     force: bool, ghost slot: Slot)
      requires Valid() && GoodSlot(slot) && slot.gallery == galleryID
      requires collapseKey == SentinelKey(slot) && cacheKey == CachedKey(slot)
      modifies this`db, this`model
      ensures Valid()
      ensures var s := old(model);
        var task := Task(Pending, "", slot, galleryKey, force, false, 0, s.now + 3 * cfg.lease);
        model == s.(tasks := s.tasks[traceID := task],
                    sentinels := s.sentinels[slot := Sentinel(traceID, s.now + 2 * cfg.lease)],
                    queue := s.queue + [traceID])
    {
      CreateTask(traceID, Hash(Some(galleryID), Some(galleryKey), Some(collapseKey), Some(cacheKey),
                               Some("PENDING"), Some(Flag(force)), Some("0"), Some(0), Some("")),
                 3 * cfg.lease, Task(Pending, "", slot, galleryKey, force, false, 0, now + 3 * cfg.lease));
      SetSentinel(collapseKey, traceID, 2 * cfg.lease, slot);
      Push(traceID);
    }

    /** GET cache key. */
    method ReadCached(cacheKey: string, ghost slot: Slot) returns (url: Option<string>)
      requires Valid() && GoodSlot(slot) && cacheKey == CachedKey(slot)
      ensures url == if slot in model.cache then Some(model.cache[slot].url) else None
    {
      assert Lookup(db, CachedKey(slot)) == CacheEntryOf(model, slot);
      url := GetText(db, cacheKey);
    }

    /** GET collapse key. */
    method ReadSentinel(collapseKey: string, ghost slot: Slot) returns (traceID: Option<string>)
      requires Valid() && GoodSlot(slot) && collapseKey == SentinelKey(slot)
      ensures traceID == if slot in model.sentinels then Some(model.sentinels[slot].trace) else None
    {
      assert Lookup(db, SentinelKey(slot)) == SentinelEntry(model, slot);
      traceID := GetText(db, collapseKey);
    }

    /** HMSET of every field, then EXPIRE. */
    method CreateTask(traceID: string, hash: Hash, ttl: int, ghost task: Task)
      requires Valid() && task.Task? && GoodSlot(task.slot)
      requires EncodeTask(task) == Entry(HashValue(hash), Some(now + ttl))
      modifies this`db, this`model
      ensures Valid() && model == old(model).(tasks := old(model).tasks[traceID := task])
    {
      var taskKey := TaskKey(traceID);
      TaskWritten(db, model, traceID, task);
      db := PutHash(db, taskKey, hash);
      db := Expire(db, taskKey, now + ttl);
      assert db == old(db)[taskKey := EncodeTask(task)];
      model := model.(tasks := model.tasks[traceID := task]);
    }

    /** SET collapse key EX ttl. */
    method SetSentinel(collapseKey: string, traceID: string, ttl: int, ghost slot: Slot)
      requires Valid() && GoodSlot(slot) && collapseKey == SentinelKey(slot)
      modifies this`db, this`model
      ensures Valid() && model == old(model).(sentinels := old(model).sentinels[slot := Sentinel(traceID, now + ttl)])
    {
      SentinelWritten(db, model, slot, Sentinel(traceID, now + ttl));
      db := SetEx(db, collapseKey, traceID, now + ttl);
      model := model.(sentinels := model.sentinels[slot := Sentinel(traceID, now + ttl)]);
    }

    /** EXPIRE collapse key. */
    method RenewSentinel(collapseKey: string, ttl: int, ghost slot: Slot)
      requires Valid() && GoodSlot(slot) && collapseKey == SentinelKey(slot)
      modifies this`db, this`model
      ensures Valid() && model == old(model).(sentinels := ExpireSentinel(old(model).sentinels, slot, now + ttl))
    {
      assert Lookup(db, SentinelKey(slot)) == SentinelEntry(model, slot);
      if slot in model.sentinels {
        SentinelWritten(db, model, slot, model.sentinels[slot].(expiresAt := now + ttl));
      }
      db := Expire(db, collapseKey, now + ttl);
      model := model.(sentinels := ExpireSentinel(model.sentinels, slot, now + ttl));
    }

    /** DEL collapse key. */
    method DeleteSentinel(collapseKey: string, ghost slot: Slot)
      requires Valid() && GoodSlot(slot) && collapseKey == SentinelKey(slot)
      modifies this`db, this`model
      ensures Valid() && model == old(model).(sentinels := old(model).sentinels - {slot})
    {
      SentinelDeleted(db, model, slot);
      db := Del(db, collapseKey);
      model := model.(sentinels := model.sentinels - {slot});
    }

    /** SET cache key EX ttl. */
    method SetCached(cacheKey: string, url: string, ttl: int, ghost slot: Slot)
      requires Valid() && GoodSlot(slot) && cacheKey == CachedKey(slot)
      modifies this`db, this`model
      ensures Valid() && model == old(model).(cache := old(model).cache[slot := CacheEntry(url, now + ttl)])
    {
      CacheWritten(db, model, slot, CacheEntry(url, now + ttl));
      db := SetEx(db, cacheKey, url, now + ttl);
      model := model.(cache := model.cache[slot := CacheEntry(url, now + ttl)]);
    }

    /** DEL task key. */
    method DeleteTask(traceID: string)
      requires Valid()
      modifies this`db, this`model
      ensures Valid() && model == old(model).(tasks := old(model).tasks - {traceID})
    {
      TaskDeleted(db, model, traceID);
      db := Del(db, TaskKey(traceID));
      model := model.(tasks := model.tasks - {traceID});
    }

    /** RPUSH queue:pending. */
    method Push(traceID: string)
      requires Valid()
      modifies this`db, this`model
      ensures Valid() && model == old(model).(queue := old(model).queue + [traceID])
    {
      assert ListAt(db, PENDING_QUEUE_KEY) == model.queue;
      QueueWritten(db, model, model.queue + [traceID]);
      db := PutList(db, PENDING_QUEUE_KEY, ListAt(db, PENDING_QUEUE_KEY) + [traceID]);
      model := model.(queue := model.queue + [traceID]);
    }

    /** LREM queue:pending, count 0 (all) or 1 (nearest the head). */
    method Remove(traceID: string, all: bool)
      requires Valid()
      modifies this`db, this`model
      ensures Valid()
      ensures var q := old(model).queue;
        model == old(model).(queue := if all then RemoveAll(q, traceID) else RemoveFirst(q, traceID))
    {
      assert ListAt(db, PENDING_QUEUE_KEY) == model.queue;
      var items := ListAt(db, PENDING_QUEUE_KEY);
      items := if all then RemoveAll(items, traceID) else RemoveFirst(items, traceID);
      QueueWritten(db, model, items);
      db := PutList(db, PENDING_QUEUE_KEY, items);
      model := model.(queue := items);
    }

    /** HGET task status. */
    method ReadStatus(traceID: string) returns (status: Option<string>)
      requires Valid()
      ensures status == None <==> !HasStatus(model, traceID)
      ensures status == Some("PENDING") <==> StatusIs(model, traceID, Pending)
      ensures status == Some("PROCESSING") <==> StatusIs(model, traceID, Processing)
      ensures status == Some("COMPLETED") <==> StatusIs(model, traceID, Completed)
      ensures status == Some("FAILED") <==> StatusIs(model, traceID, Failed)
    {
      assert Lookup(db, TaskKey(traceID)) == TaskEntry(model, traceID);
      status := HashAt(db, TaskKey(traceID)).status;
    }

    /** HMSET status and node_id, then EXPIRE, on an existing task. */
    method WriteTask(traceID: string, status: Status, nodeID: string, ttl: int)
      requires Valid() && HasStatus(model, traceID)
      modifies this`db, this`model
      ensures Valid()
      ensures model == old(model).(tasks := old(model).tasks[traceID :=
                         old(model).tasks[traceID].(status := status, node := nodeID, expiresAt := now + ttl)])
    {
      var taskKey := TaskKey(traceID);
      assert Lookup(db, taskKey) == TaskEntry(model, traceID);
      ghost var db0 := db;
      db := PutHash(db, taskKey, HashAt(db, taskKey).(status := Some(StatusText(status)), nodeId := Some(nodeID)));
      db := Expire(db, taskKey, now + ttl);
      ghost var task := model.tasks[traceID].(status := status, node := nodeID, expiresAt := now + ttl);
      assert db == db0[taskKey := EncodeTask(task)];
      TaskWritten(db0, model, traceID, task);
      model := model.(tasks := model.tasks[traceID := task]);
    }

    /** The keys and node a task hash stores are those of its own slot. */
    method ReadTask(traceID: string) returns (hash: Hash)
      requires Valid() && HasStatus(model, traceID)
      ensures hash == EncodeTask(model.tasks[traceID]).value.hash && GoodSlot(model.tasks[traceID].slot)
    {
      assert Lookup(db, TaskKey(traceID)) == TaskEntry(model, traceID);
      hash := HashAt(db, TaskKey(traceID));
    }

    method FetchTask(traceID: string, nodeID: string) returns (assignment: Option<(string, string)>)
      requires Valid()
      modifies this`db, this`model
      ensures Valid() && model == Fetch(cfg, old(model), traceID, nodeID)
      ensures assignment == if !StatusIs(old(model), traceID, Pending) then None
                            else Some((old(model).tasks[traceID].slot.gallery, old(model).tasks[traceID].galleryKey))
    {
      var status := ReadStatus(traceID);
      if status != Some("PENDING") { return None; }
      WriteTask(traceID, Processing, nodeID, cfg.lease);
      var hash := ReadTask(traceID);
      RenewSentinel(hash.collapseKey.value, cfg.lease, model.tasks[traceID].slot);
      assignment := Some((hash.galleryId.value, hash.galleryKey.value));
    }

    method CompleteTask(traceID: string, nodeID: string, archiveURL: string) returns (reply: CompleteReply)
      requires Valid()
      modifies this`db, this`model
      ensures Valid() && model == Complete(cfg, old(model), traceID, nodeID, archiveURL)
      ensures reply == CompleteReplyFor(old(model), traceID, nodeID)
    {
      var status := ReadStatus(traceID);
      if status != Some("PROCESSING") { return CompleteInvalid; }
      var hash := ReadTask(traceID);
      if hash.nodeId.value != nodeID { return CompleteMismatch; }
      Accept(traceID, nodeID, hash, archiveURL);
      reply := CompleteOk;
    }

    /** The writes of LuaCompleteTask, for the node that holds the lease. */
    method Accept(traceID: string, nodeID: string, hash: Hash, archiveURL: string)
      requires Valid() && CompleteReplyFor(model, traceID, nodeID) == CompleteOk && GoodSlot(model.tasks[traceID].slot)
      requires hash.cacheKey == Some(CachedKey(model.tasks[traceID].slot))
      requires hash.collapseKey == Some(SentinelKey(model.tasks[traceID].slot))
      modifies this`db, this`model
      ensures Valid() && model == Complete(cfg, old(model), traceID, nodeID, archiveURL)
    {
      WriteTask(traceID, Completed, nodeID, FINISHED_TTL);
      StoreResult(traceID, hash, archiveURL);
    }

    /** SET cache key, DEL collapse key, LREM. */
    method StoreResult(traceID: string, hash: Hash, archiveURL: string)
      requires Valid() && HasStatus(model, traceID) && GoodSlot(model.tasks[traceID].slot)
      requires hash.cacheKey == Some(CachedKey(model.tasks[traceID].slot))
      requires hash.collapseKey == Some(SentinelKey(model.tasks[traceID].slot))
      modifies this`db, this`model
      ensures Valid()
      ensures var s, slot := old(model), old(model).tasks[traceID].slot;
        model == s.(cache := s.cache[slot := CacheEntry(archiveURL, now + cfg.cacheTTL)],
                    sentinels := s.sentinels - {slot}, queue := RemoveAll(s.queue, traceID))
    {
      ghost var slot := model.tasks[traceID].slot;
      SetCached(hash.cacheKey.value, archiveURL, cfg.cacheTTL, slot);
      DeleteSentinel(hash.collapseKey.value, slot);
      Remove(traceID, true);
    }

    /** finalizeTask: FailTask and RejectTask. */
    method FinalizeTask(traceID: string, nodeID: string, mode: FailMode) returns (reply: FailReply)
      requires Valid()
      modifies this`db, this`model
      ensures Valid() && model == Finalize(old(model), traceID, nodeID, mode)
      ensures reply == FailReplyFor(old(model), traceID, nodeID)
    {
      var status := ReadStatus(traceID);
      if status == None { return FailGone; }
      if status == Some("COMPLETED") || status == Some("FAILED") { return FailInvalid; }
      var hash := ReadTask(traceID);
      if status == Some("PROCESSING") {
        if nodeID == "" { return FailNeedNode; }
        if hash.nodeId.value != nodeID { return FailMismatch; }
      }
      assert FailReplyFor(model, traceID, nodeID) == FailOk;
      DeleteSentinel(hash.collapseKey.value, model.tasks[traceID].slot);
      Remove(traceID, true);
      if mode == Reject {
        DeleteTask(traceID);
      } else {
        WriteTask(traceID, Failed, hash.nodeId.value, FINISHED_TTL);
      }
      reply := FailOk;
    }

    method UpdateTaskCost(traceID: string, freeTier: bool, estimatedGP: int)
      requires Valid()
      modifies this`db, this`model
      ensures Valid() && model == UpdateCost(old(model), traceID, freeTier, estimatedGP)
    {
      var taskKey := TaskKey(traceID);
      assert Lookup(db, taskKey) == TaskEntry(model, traceID);
      ghost var s := UpdateCost(model, traceID, freeTier, estimatedGP);
      TaskWritten(db, model, traceID, s.tasks[traceID]);
      var hash := HashAt(db, taskKey);
      db := PutHash(db, taskKey, hash.(freeTier := Some(Flag(freeTier)), estimatedGP := Some(estimatedGP)));
      assert db == old(db)[taskKey := EncodeTask(s.tasks[traceID])];
      model := s;
    }

    /** LuaReclaimTask. */
    method ReclaimTask(traceID: string) returns (reclaimed: bool)
      requires Valid()
      modifies this`db, this`model
      ensures Valid() && model == Reclaim(cfg, old(model), traceID)
      ensures reclaimed == StatusIs(old(model), traceID, Processing)
    {
      var status := ReadStatus(traceID);
      if status != Some("PROCESSING") { return false; }
      WriteTask(traceID, Pending, "", 3 * cfg.lease);
      Requeue(traceID);
      reclaimed := true;
    }

    /** RPUSH, then SET the stored collapse key. */
    method Requeue(traceID: string)
      requires Valid() && HasStatus(model, traceID)
      modifies this`db, this`model
      ensures Valid()
      ensures var s := old(model);
        model == s.(queue := s.queue + [traceID],
                    sentinels := s.sentinels[s.tasks[traceID].slot := Sentinel(traceID, now + 2 * cfg.lease)])
    {
      Push(traceID);
      var hash := ReadTask(traceID);
      SetSentinel(hash.collapseKey.value, traceID, 2 * cfg.lease, model.tasks[traceID].slot);
    }

    /** A second passes and Redis drops what has expired. */
    method PassSecond()
      requires Valid()
      modifies this`now, this`db, this`model
      ensures Valid() && model == Tick(old(model))
    {
      Purged(db, model, now + 1);
      db, model := Purge(db, now + 1), Tick(model);
      now := now + 1;
    }

    /** One collected entry of the watchdog's scan: TTL and status, then LREM 1, reclaim or nothing. */
    method ExamineEntry(traceID: string, reclaimThreshold: int)
      requires Valid() && reclaimThreshold == cfg.lease / 2
      modifies this`db, this`model
      ensures Valid() && model == ScanEntry(cfg, old(model), traceID)
    {
      assert Lookup(db, TaskKey(traceID)) == TaskEntry(model, traceID);
      var ttl := TTL(db, TaskKey(traceID), now);
      var status := ReadStatus(traceID);
      if status == None {
        Remove(traceID, false);
      } else if status == Some("PROCESSING") && ttl > 0 && ttl < reclaimThreshold {
        var _ := ReclaimTask(traceID);
      }
    }

    /** LLEN, then LINDEX 0 .. limit - 1. */
    method CollectEntries() returns (traceIDs: seq<string>)
      requires Valid()
      ensures traceIDs == model.queue[..ScanLength(model)]
    {
      assert Lookup(db, PENDING_QUEUE_KEY) == QueueEntry(model);
      var limit := |ListAt(db, PENDING_QUEUE_KEY)|;
      if limit > SCAN_LIMIT { limit := SCAN_LIMIT; }
      traceIDs := [];
      for i := 0 to limit
        invariant traceIDs == model.queue[..i]
      {
        traceIDs := traceIDs + [ListAt(db, PENDING_QUEUE_KEY)[i]];
      }
    }

    /** One scan of the lease watchdog, nothing intervening: collect first, then process. */
    method ReclaimExpiredTasks()
      requires Valid()
      modifies this`db, this`model
      ensures Valid() && model == ScanResult(cfg, old(model))
    {
      ghost var s := model;
      ScanPrefixEnds(cfg, s);
      var traceIDs := CollectEntries();
      for i := 0 to |traceIDs|
        invariant Valid() && model == ScanPrefix(cfg, s, i)
      {
        ScanPrefixStep(cfg, s, i);
        ExamineEntry(traceIDs[i], cfg.lease / 2);
      }
    }
  }
}
