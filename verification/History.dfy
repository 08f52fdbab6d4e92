/**
 * What a scheduler run looks like from outside: the log of scripts that took effect, and the
 * per-trace lease automaton that every such log must obey. Nothing here mentions Redis.
 */
module History {
  import opened Keys
  import opened TaskStore

  datatype Event =
    | TaskCreated(trace: string, slot: Slot)
    | TaskFetched(trace: string, node: string)
    | TaskCompleted(trace: string, node: string, url: string, at: int)
    | TaskFailed(trace: string, node: string, mode: FailMode)
    | TaskReclaimed(trace: string)

  datatype Phase = Waiting | Leased(node: string) | Done(url: Option<string>)

  datatype TraceInfo = TraceInfo(slot: Slot, phase: Phase, fetches: nat, reclaims: nat)

  datatype Completion = Completion(url: string, at: int)

  /** The log summed up: each trace's phase, and the latest completion of each slot. */
  datatype Summary = Summary(traces: map<string, TraceInfo>, latest: map<Slot, Completion>)

  const Nothing := Summary(map[], map[])

  function Record(h: Summary, e: Event): Summary {
    if e.TaskCreated? then h.(traces := h.traces[e.trace := TraceInfo(e.slot, Waiting, 0, 0)])
    else if e.trace !in h.traces then h
    else
      var i := h.traces[e.trace];
      match e
      case TaskFetched(t, n) => h.(traces := h.traces[t := i.(phase := Leased(n), fetches := i.fetches + 1)])
      case TaskCompleted(t, n, url, at) =>
        h.(traces := h.traces[t := i.(phase := Done(Some(url)))], latest := h.latest[i.slot := Completion(url, at)])
      case TaskFailed(t, _, _) => h.(traces := h.traces[t := i.(phase := Done(None))])
      case TaskReclaimed(t) => h.(traces := h.traces[t := i.(phase := Waiting, reclaims := i.reclaims + 1)])
  }

  function Replay(log: seq<Event>): Summary {
    if log == [] then Nothing else Record(Replay(log[..|log| - 1]), log[|log| - 1])
  }

  /** The lease automaton: which event may come next for a trace. */
  ghost predicate Allowed(h: Summary, e: Event) {
    match e
    case TaskCreated(t, _) => t !in h.traces
    case TaskFetched(t, _) => t in h.traces && h.traces[t].phase == Waiting
    case TaskCompleted(t, n, _, _) => t in h.traces && h.traces[t].phase == Leased(n)
    case TaskFailed(t, n, _) =>
      t in h.traces && !h.traces[t].phase.Done? && (h.traces[t].phase.Leased? ==> h.traces[t].phase.node == n)
    case TaskReclaimed(t) => t in h.traces && h.traces[t].phase.Leased?
  }

  ghost predicate Lawful(log: seq<Event>) {
    forall j :: 0 <= j < |log| ==> Allowed(Replay(log[..j]), log[j])
  }

  lemma ReplayAppend(log: seq<Event>, e: Event)
    ensures Replay(log + [e]) == Record(Replay(log), e)
  {
    assert (log + [e])[..|log|] == log;
  }

  lemma LawfulAppend(log: seq<Event>, e: Event)
    requires Lawful(log) && Allowed(Replay(log), e)
    ensures Lawful(log + [e])
  {
    var l := log + [e];
    forall j | 0 <= j < |l| ensures Allowed(Replay(l[..j]), l[j]) {
      assert l[..j] == log[..j];
      assert log[..|log|] == log;
    }
  }

  ghost predicate IsFinal(e: Event) {
    e.TaskCompleted? || e.TaskFailed?
  }

  /** One allowed event, seen from trace t. */
  lemma RecordSeenFrom(h: Summary, e: Event, t: string)
    requires t in h.traces && Allowed(h, e)
    ensures t in Record(h, e).traces && Record(h, e).traces[t].slot == h.traces[t].slot
    ensures e.trace != t || h.traces[t].phase.Done? ==> Record(h, e).traces[t] == h.traces[t] && e.trace != t
    ensures h.traces[t].phase.Leased? && !Record(h, e).traces[t].phase.Leased? && !Record(h, e).traces[t].phase.Done?
            ==> e == TaskReclaimed(t)
    ensures e == TaskReclaimed(t) ==> Record(h, e).traces[t].phase == Waiting
  {
  }

  lemma ReplayNext(log: seq<Event>, j: nat)
    requires j < |log|
    ensures Replay(log[..j + 1]) == Record(Replay(log[..j]), log[j])
  {
    assert log[..j + 1] == log[..j] + [log[j]];
    ReplayAppend(log[..j], log[j]);
  }

  // ---- the same log as a path of summaries ----

  ghost predicate PathStep(hs: seq<Summary>, log: seq<Event>, k: nat)
    requires |hs| == |log| + 1 && k < |log|
  {
    hs[k + 1] == Record(hs[k], log[k]) && Allowed(hs[k], log[k])
  }

  ghost predicate IsPath(hs: seq<Summary>, log: seq<Event>) {
    |hs| == |log| + 1 && forall k :: 0 <= k < |log| ==> PathStep(hs, log, k)
  }

  lemma PathOf(log: seq<Event>) returns (hs: seq<Summary>)
    requires Lawful(log)
    ensures IsPath(hs, log) && forall k :: 0 <= k <= |log| ==> hs[k] == Replay(log[..k])
  {
    hs := seq(|log| + 1, k requires 0 <= k <= |log| => Replay(log[..k]));
    forall k | 0 <= k < |log| ensures PathStep(hs, log, k) {
      ReplayNext(log, k);
    }
  }

  lemma {:induction false} PathPersists(hs: seq<Summary>, log: seq<Event>, t: string, i: nat, j: nat)
    requires IsPath(hs, log) && i <= j <= |log| && t in hs[i].traces
    ensures t in hs[j].traces && hs[j].traces[t].slot == hs[i].traces[t].slot
    ensures hs[i].traces[t].phase.Done? ==>
              hs[j].traces[t] == hs[i].traces[t] && forall k :: i <= k < j ==> log[k].trace != t
    decreases j
  {
    if i < j {
      PathPersists(hs, log, t, i, j - 1);
      assert PathStep(hs, log, j - 1);
      RecordSeenFrom(hs[j - 1], log[j - 1], t);
    }
  }

  lemma {:induction false} PathLeaseLost(hs: seq<Summary>, log: seq<Event>, t: string, i: nat, j: nat) returns (k: nat)
    requires IsPath(hs, log) && i <= j <= |log|
    requires t in hs[i].traces && hs[i].traces[t].phase.Leased?
    requires t in hs[j].traces && hs[j].traces[t].phase == Waiting
    ensures i <= k < j && log[k] == TaskReclaimed(t)
    decreases j
  {
    PathPersists(hs, log, t, i, j - 1);
    assert PathStep(hs, log, j - 1);
    RecordSeenFrom(hs[j - 1], log[j - 1], t);
    if hs[j - 1].traces[t].phase == Waiting {
      k := PathLeaseLost(hs, log, t, i, j - 1);
    } else {
      k := j - 1;
    }
  }

  /** A lease held after an event is the one that event took, or an older one. */
  lemma RecordLeases(h: Summary, e: Event, t: string)
    requires t in Record(h, e).traces && Record(h, e).traces[t].phase.Leased?
    ensures e.trace == t && Allowed(h, e) ==> e == TaskFetched(t, Record(h, e).traces[t].phase.node)
    ensures e.trace != t ==> t in h.traces && h.traces[t] == Record(h, e).traces[t]
  {
  }

  lemma {:induction false} PathLeaseStart(hs: seq<Summary>, log: seq<Event>, t: string, j: nat) returns (i: nat)
    requires IsPath(hs, log) && j <= |log| && hs[0] == Nothing
    requires t in hs[j].traces && hs[j].traces[t].phase.Leased?
    ensures i < j && log[i] == TaskFetched(t, hs[j].traces[t].phase.node)
    ensures forall k :: i < k < j ==> log[k].trace != t
  {
    assert PathStep(hs, log, j - 1);
    RecordLeases(hs[j - 1], log[j - 1], t);
    if log[j - 1].trace == t {
      i := j - 1;
    } else {
      i := PathLeaseStart(hs, log, t, j - 1);
    }
  }

  /** A trace, once born, keeps its slot; once done, it never changes or is mentioned again. */
  lemma TracePersists(log: seq<Event>, t: string, i: nat, j: nat)
    requires i <= j <= |log| && Lawful(log)
    requires t in Replay(log[..i]).traces
    ensures t in Replay(log[..j]).traces
    ensures Replay(log[..j]).traces[t].slot == Replay(log[..i]).traces[t].slot
    ensures Replay(log[..i]).traces[t].phase.Done? ==>
              && Replay(log[..j]).traces[t] == Replay(log[..i]).traces[t]
              && forall k :: i <= k < j ==> log[k].trace != t
  {
    var hs := PathOf(log);
    PathPersists(hs, log, t, i, j);
  }

  /** A lease held at i and free at j was reclaimed in between. */
  lemma LeaseLostOnlyByReclaim(log: seq<Event>, t: string, i: nat, j: nat) returns (k: nat)
    requires i <= j <= |log| && Lawful(log)
    requires t in Replay(log[..i]).traces && Replay(log[..i]).traces[t].phase.Leased?
    requires t in Replay(log[..j]).traces && Replay(log[..j]).traces[t].phase == Waiting
    ensures i <= k < j && log[k] == TaskReclaimed(t)
  {
    var hs := PathOf(log);
    k := PathLeaseLost(hs, log, t, i, j);
  }

  lemma SlotOfCreated(log: seq<Event>, i: nat, j: nat)
    requires Lawful(log) && i < j <= |log| && log[i].TaskCreated?
    ensures log[i].trace in Replay(log[..j]).traces && Replay(log[..j]).traces[log[i].trace].slot == log[i].slot
  {
    ReplayNext(log, i);
    TracePersists(log, log[i].trace, i + 1, j);
  }

  lemma {:induction false} PathCreated(hs: seq<Summary>, log: seq<Event>, t: string, j: nat) returns (i: nat)
    requires IsPath(hs, log) && j <= |log| && hs[0] == Nothing && t in hs[j].traces
    ensures i < j && log[i] == TaskCreated(t, hs[j].traces[t].slot)
  {
    assert PathStep(hs, log, j - 1);
    if log[j - 1].TaskCreated? && log[j - 1].trace == t {
      i := j - 1;
    } else {
      i := PathCreated(hs, log, t, j - 1);
    }
  }

  lemma CreatedSomewhere(log: seq<Event>, t: string) returns (i: nat)
    requires Lawful(log) && t in Replay(log).traces
    ensures i < |log| && log[i] == TaskCreated(t, Replay(log).traces[t].slot)
  {
    var hs := PathOf(log);
    assert hs[0] == Replay(log[..0]) && log[..|log|] == log;
    i := PathCreated(hs, log, t, |log|);
  }

  // ---- what a lawful log says, in terms of positions only ----

  /** Lease exclusivity: two fetches of one trace are separated by a reclaim. */
  lemma ReclaimBetweenFetches(log: seq<Event>, i: nat, j: nat)
    requires Lawful(log) && i < j < |log|
    requires log[i].TaskFetched? && log[j].TaskFetched? && log[i].trace == log[j].trace
    ensures exists k :: i < k < j && log[k] == TaskReclaimed(log[i].trace)
  {
    assert Allowed(Replay(log[..i]), log[i]) && Allowed(Replay(log[..j]), log[j]);
    ReplayNext(log, i);
    var k := LeaseLostOnlyByReclaim(log, log[i].trace, i + 1, j);
  }

  /** A completion comes from the node of the latest fetch, with nothing about the trace in between. */
  lemma CompletionFollowsItsFetch(log: seq<Event>, j: nat) returns (i: nat)
    requires Lawful(log) && j < |log| && log[j].TaskCompleted?
    ensures i < j && log[i] == TaskFetched(log[j].trace, log[j].node)
    ensures forall k :: i < k < j ==> log[k].trace != log[j].trace
  {
    assert Allowed(Replay(log[..j]), log[j]);
    i := LeaseStart(log, log[j].trace, j);
  }

  lemma LeaseStart(log: seq<Event>, t: string, j: nat) returns (i: nat)
    requires Lawful(log) && j <= |log|
    requires t in Replay(log[..j]).traces && Replay(log[..j]).traces[t].phase.Leased?
    ensures i < j && log[i] == TaskFetched(t, Replay(log[..j]).traces[t].phase.node)
    ensures forall k :: i < k < j ==> log[k].trace != t
  {
    var hs := PathOf(log);
    assert hs[0] == Replay(log[..0]);
    i := PathLeaseStart(hs, log, t, j);
  }

  /** Finality: nothing about a trace follows its completion, failure or rejection. */
  lemma NothingFollowsFinal(log: seq<Event>, i: nat, j: nat)
    requires Lawful(log) && i < j < |log| && IsFinal(log[i])
    ensures log[j].trace != log[i].trace
  {
    assert Allowed(Replay(log[..i]), log[i]) && Allowed(Replay(log[..j]), log[j]);
    ReplayNext(log, i);
    TracePersists(log, log[i].trace, i + 1, |log|);
  }

  function FetchCount(log: seq<Event>, t: string): nat {
    if log == [] then 0
    else FetchCount(log[..|log| - 1], t) + if log[|log| - 1].TaskFetched? && log[|log| - 1].trace == t then 1 else 0
  }

  function ReclaimCount(log: seq<Event>, t: string): nat {
    if log == [] then 0
    else ReclaimCount(log[..|log| - 1], t) + if log[|log| - 1] == TaskReclaimed(t) then 1 else 0
  }

  lemma LawfulPrefix(log: seq<Event>, n: nat)
    requires Lawful(log) && n <= |log|
    ensures Lawful(log[..n])
  {
    forall j | 0 <= j < n ensures Allowed(Replay(log[..n][..j]), log[..n][j]) {
      assert log[..n][..j] == log[..j];
    }
  }

  /** Fetches never outrun reclaims by more than one; a lease is held exactly when they are ahead. */
  lemma {:induction false} FetchesWithinReclaims(log: seq<Event>, t: string)
    requires Lawful(log)
    ensures FetchCount(log, t) <= 1 + ReclaimCount(log, t)
    ensures t !in Replay(log).traces ==> FetchCount(log, t) == ReclaimCount(log, t) == 0
    ensures t in Replay(log).traces ==>
              var i := Replay(log).traces[t];
              && i.fetches == FetchCount(log, t) && i.reclaims == ReclaimCount(log, t)
              && (i.phase == Waiting ==> i.fetches == i.reclaims)
              && (i.phase.Leased? ==> i.fetches == 1 + i.reclaims)
  {
    if log != [] {
      var n := |log| - 1;
      LawfulPrefix(log, n);
      FetchesWithinReclaims(log[..n], t);
      assert Allowed(Replay(log[..n]), log[n]);
    }
  }
}
