/** The flat Redis keyspace: key builders, and a parser that shows they never clash. */
module Keys {

  /** A user's request slot for one gallery: what the cache and the collapse sentinel are keyed by. */
  datatype Slot = Slot(user: string, gallery: string)

  /** The role a key plays in the keyspace. */
  datatype KeyRole =
    | TaskRole(trace: string)
    | CacheRole(slot: Slot)
    | CollapseRole(slot: Slot)
    | QueueRole
    | ForeignRole

  const PENDING_QUEUE_KEY := "queue:pending"

  function CacheKey(userID: string, galleryID: string): string {
    "cache:" + userID + ":" + galleryID
  }

  function TaskKey(traceID: string): string {
    "task:" + traceID
  }

  function CollapsingKey(userID: string, galleryID: string): string {
    "inflight:" + userID + ":" + galleryID
  }

  /** User identifiers are UUIDs, so they hold no colon; gallery identifiers are unrestricted. */
  ghost predicate ColonFree(s: string) {
    forall i :: 0 <= i < |s| ==> s[i] != ':'
  }

  function FirstColon(s: string): (n: nat)
    ensures n <= |s|
    ensures forall i :: 0 <= i < n ==> s[i] != ':'
    ensures n < |s| ==> s[n] == ':'
  {
    if s == [] || s[0] == ':' then 0 else 1 + FirstColon(s[1..])
  }

  /** Splits "user:gallery" at its first colon. */
  function SplitSlot(s: string): Slot {
    var n := FirstColon(s);
    Slot(s[..n], if n < |s| then s[n + 1..] else "")
  }

  function ParseKey(key: string): KeyRole {
    if "task:" <= key then TaskRole(key[5..])
    else if "cache:" <= key then CacheRole(SplitSlot(key[6..]))
    else if "inflight:" <= key then CollapseRole(SplitSlot(key[9..]))
    else if key == PENDING_QUEUE_KEY then QueueRole
    else ForeignRole
  }

  lemma SplitSlotInverts(user: string, gallery: string)
    requires ColonFree(user)
    ensures SplitSlot(user + ":" + gallery) == Slot(user, gallery)
  {
    var s := user + ":" + gallery;
    var n := FirstColon(s);
    assert s[|user|] == ':';
    assert forall i :: 0 <= i < |user| ==> s[i] == user[i];
    assert s[..n] == user;
    assert s[n + 1..] == gallery;
  }

  /** Parsing undoes every key builder, so the builders are injective and their ranges disjoint. */
  lemma ParseInvertsBuilders(traceID: string, user: string, gallery: string)
    requires ColonFree(user)
    ensures ParseKey(TaskKey(traceID)) == TaskRole(traceID)
    ensures ParseKey(CacheKey(user, gallery)) == CacheRole(Slot(user, gallery))
    ensures ParseKey(CollapsingKey(user, gallery)) == CollapseRole(Slot(user, gallery))
    ensures ParseKey(PENDING_QUEUE_KEY) == QueueRole
  {
    SplitSlotInverts(user, gallery);
    var t, c, i := TaskKey(traceID), CacheKey(user, gallery), CollapsingKey(user, gallery);
    assert t[5..] == traceID;
    assert c[6..] == user + ":" + gallery && c[0] == 'c';
    assert i[9..] == user + ":" + gallery && i[0] == 'i';
    assert PENDING_QUEUE_KEY[0] == 'q';
  }

  /**
   * Exactly when two users can share a cache key: one user id must continue the other past a colon.
   * For colon-free ids that means the ids are equal.
   */
  lemma SharedCacheKeyIff(u: string, v: string)
    ensures (exists g, h :: CacheKey(u, g) == CacheKey(v, h)) <==> (u + ":" <= v + ":" || v + ":" <= u + ":")
    ensures ColonFree(u) && ColonFree(v) && (exists g, h :: CacheKey(u, g) == CacheKey(v, h)) ==> u == v
  {
    if g, h :| CacheKey(u, g) == CacheKey(v, h) {
      var k := CacheKey(u, g);
      assert k[6..] == u + ":" + g;
      assert k[6..] == v + ":" + h;
      assert k[6..][..|u| + 1] == u + ":";
      assert k[6..][..|v| + 1] == v + ":";
      if ColonFree(u) && ColonFree(v) {
        SplitSlotInverts(u, g);
        SplitSlotInverts(v, h);
      }
    }
    if u + ":" <= v + ":" { ContinuationShares(u, v); }
    if v + ":" <= u + ":" { ContinuationShares(v, u); }
  }

  lemma ContinuationShares(u: string, v: string)
    requires u + ":" <= v + ":"
    ensures exists g, h :: CacheKey(u, g) == CacheKey(v, h)
    ensures exists g, h :: CacheKey(v, g) == CacheKey(u, h)
  {
    var g := (v + ":")[|u| + 1..];
    assert u + ":" + g == v + ":" + "";
    assert CacheKey(u, g) == "cache:" + (u + ":" + g);
    assert CacheKey(v, "") == "cache:" + (v + ":" + "");
    assert CacheKey(v, "") == CacheKey(u, g);
  }
}
