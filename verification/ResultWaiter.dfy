/**
 * ws/hub.go, ResultWaiter: waiting channels kept in Go slices that are grown and shifted in place
 * under a lock, while delivery walks a slice outside the lock.
 */
module ResultWaiter {
  import opened TaskStore

  /** The part of a node's report that the server branches on; actualGP is carried for statistics. */
  datatype TaskResult = TaskResult(success: bool, url: string, actualGP: int)

  /** A channel with room for one result. */
  class Channel {
    var buffer: Option<TaskResult>

    constructor ()
      ensures buffer == None
    {
      buffer := None;
    }

    /** select { case ch <- result: default: } */
    method TrySend(result: TaskResult)
      modifies this
      ensures buffer == if old(buffer) == None then Some(result) else old(buffer)
    {
      if buffer == None { buffer := Some(result); }
    }
  }

  /** A Go slice: a prefix of a shared backing array. */
  datatype Slice = Slice(arr: array<Channel?>, len: nat)

  lemma RemovedAt(chs: seq<Channel?>, ch: Channel, i: nat)
    requires i < |chs| && chs[i] == ch && ch !in chs[..i]
    ensures RemoveFirst(chs, ch) == chs[..i] + chs[i + 1..]
  {
    assert chs == chs[..i] + ([chs[i]] + chs[i + 1..]);
    RemoveFirstAfter(chs[..i], chs[i], chs[i + 1..]);
  }

  class Waiter {
    var waiters: map<string, Slice>
    /** Backing arrays of slices that some Notify has taken out and may still be walking. */
    ghost var taken: set<array<Channel?>>

    ghost function Backing(): set<array<Channel?>>
      reads this
    {
      set t | t in waiters :: waiters[t].arr
    }

    ghost predicate Valid()
      reads this, Backing()
    {
      && (forall t :: t in waiters ==> Proper(waiters[t]))
      && (forall t, u :: t in waiters && u in waiters && t != u ==> waiters[t].arr != waiters[u].arr)
    }

    /** A non-empty slice of real channels that no Notify holds. */
    ghost predicate Proper(chs: Slice)
      reads this`taken, chs.arr
    {
      0 < chs.len <= chs.arr.Length && null !in chs.arr[..chs.len] && chs.arr !in taken
    }

    /** Valid, but for the entry of one trace, whose array is in the middle of an update. */
    ghost predicate ValidExcept(x: string, arr: array<Channel?>)
      reads this, Backing()
    {
      && (forall t :: t in waiters && t != x ==> Proper(waiters[t]) && waiters[t].arr != arr)
      && (forall t, u | t in waiters && u in waiters && t != u && t != x && u != x ::
            waiters[t].arr != waiters[u].arr)
    }

    /** Writes the entry of a trace back; an empty slice deletes it. */
    method SetSlice(traceID: string, chs: Slice)
      requires ValidExcept(traceID, chs.arr) && (chs.len == 0 || Proper(chs))
      modifies this`waiters
      ensures Valid() && waiters == if chs.len == 0 then old(waiters) - {traceID} else old(waiters)[traceID := chs]
    {
      waiters := if chs.len == 0 then waiters - {traceID} else waiters[traceID := chs];
    }

    /** The channels registered for a trace, in order. */
    ghost function Waiting(t: string): seq<Channel?>
      requires Valid()
      reads this, Backing()
    {
      if t in waiters then waiters[t].arr[..waiters[t].len] else []
    }

    constructor ()
      ensures Valid() && waiters == map[] && taken == {}
    {
      waiters, taken := map[], {};
    }

    /** append(chs, ch): in place while there is capacity, else into a larger array. */
    method Append(chs: Slice, ch: Channel) returns (r: Slice)
      requires chs.len <= chs.arr.Length
      modifies chs.arr
      ensures r.len == chs.len + 1 <= r.arr.Length
      ensures r.arr[..r.len] == old(chs.arr[..chs.len]) + [ch]
      ensures r.arr == chs.arr || fresh(r.arr)
    {
      if chs.len < chs.arr.Length {
        chs.arr[chs.len] := ch;
        r := Slice(chs.arr, chs.len + 1);
      } else {
        var arr := new Channel?[2 * chs.arr.Length + 1];
        for i := 0 to chs.len
          invariant arr[..i] == chs.arr[..i]
          invariant chs.arr[..] == old(chs.arr[..])
        {
          arr[i] := chs.arr[i];
        }
        arr[chs.len] := ch;
        r := Slice(arr, chs.len + 1);
      }
    }

    /** The grown slice, before the map shows it. */
    method AppendTo(traceID: string, ch: Channel) returns (longer: Slice)
      requires Valid()
      modifies Backing()
      ensures ValidExcept(traceID, longer.arr) && Proper(longer)
      ensures longer.arr[..longer.len] == old(Waiting(traceID)) + [ch]
      ensures longer.arr in Backing() || fresh(longer.arr)
      ensures forall t :: t in waiters && t != traceID ==> waiters[t].arr[..waiters[t].len] == old(Waiting(t))
    {
      var chs := SliceOf(traceID);
      longer := Append(chs, ch);
    }

    method Register(traceID: string) returns (ch: Channel)
      requires Valid()
      modifies this`waiters, Backing()
      ensures Valid() && fresh(ch) && ch.buffer == None
      ensures Waiting(traceID) == old(Waiting(traceID)) + [ch]
      ensures forall t :: t != traceID ==> Waiting(t) == old(Waiting(t))
      ensures forall a :: a in Backing() ==> a in old(Backing()) || fresh(a)
    {
      ch := new Channel();
      var longer := AppendTo(traceID, ch);
      SetSlice(traceID, longer);
    }

    /** waiters[traceID]: a missing entry reads as the nil slice. */
    method SliceOf(traceID: string) returns (chs: Slice)
      requires Valid()
      ensures chs.len <= chs.arr.Length && chs.arr[..chs.len] == Waiting(traceID)
      ensures if traceID in waiters then chs == waiters[traceID] else chs.len == 0 && fresh(chs.arr)
    {
      if traceID in waiters { return waiters[traceID]; }
      var none := new Channel?[0];
      chs := Slice(none, 0);
    }

    method IndexOf(chs: Slice, ch: Channel) returns (i: nat)
      requires chs.len <= chs.arr.Length
      ensures i <= chs.len && ch !in chs.arr[..i]
      ensures i < chs.len ==> chs.arr[i] == ch
    {
      i := 0;
      while i < chs.len && chs.arr[i] != ch
        invariant i <= chs.len && ch !in chs.arr[..i]
      {
        i := i + 1;
      }
    }

    /** append(chs[:i], chs[i+1:]...): the tail moves down by one inside the same array. */
    method Shift(chs: Slice, i: nat)
      requires i < chs.len <= chs.arr.Length
      modifies chs.arr
      ensures chs.arr[..chs.len - 1] == old(chs.arr[..i] + chs.arr[i + 1..chs.len])
    {
      for k := i to chs.len - 1
        invariant chs.arr[..k] == old(chs.arr[..i] + chs.arr[i + 1..k + 1])
        invariant chs.arr[k..] == old(chs.arr[k..])
      {
        assert chs.arr[k + 1] == old(chs.arr[k + 1]) by { assert chs.arr[k..][1] == chs.arr[k + 1]; }
        chs.arr[k] := chs.arr[k + 1];
        assert chs.arr[k + 1..] == old(chs.arr[k + 1..]);
      }
    }

    method Unregister(traceID: string, ch: Channel)
      requires Valid()
      modifies this`waiters, Backing()
      ensures Valid()
      ensures Waiting(traceID) == RemoveFirst(old(Waiting(traceID)), ch)
      ensures forall t :: t != traceID ==> Waiting(t) == old(Waiting(t))
      ensures Backing() <= old(Backing())
    {
      ghost var before := Waiting(traceID);
      var i := IndexIn(traceID, ch);
      if i < Length(traceID) {
        RemovedAt(before, ch, i);
        RemoveAt(traceID, i);
      } else {
        assert before[..i] == before;
        AbsentStays(before, ch);
      }
    }

    function Length(t: string): nat
      reads this
    {
      if t in waiters then waiters[t].len else 0
    }

    /** Where the channel stands in its trace's slice, or the slice's length. */
    method IndexIn(traceID: string, ch: Channel) returns (i: nat)
      requires Valid()
      ensures i <= |Waiting(traceID)| == Length(traceID) && ch !in Waiting(traceID)[..i]
      ensures i < |Waiting(traceID)| ==> Waiting(traceID)[i] == ch
    {
      if traceID !in waiters { return 0; }
      i := IndexOf(waiters[traceID], ch);
      assert Waiting(traceID)[..i] == waiters[traceID].arr[..i];
    }

    /** The shift alone: the map still shows the old length. */
    method ShiftEntry(traceID: string, i: nat)
      requires Valid() && i < |Waiting(traceID)|
      modifies waiters[traceID].arr
      ensures var chs := waiters[traceID];
        && ValidExcept(traceID, chs.arr) && (chs.len == 1 || Proper(Slice(chs.arr, chs.len - 1)))
        && chs.arr[..chs.len - 1] == old(Waiting(traceID)[..i] + Waiting(traceID)[i + 1..])
      ensures forall t :: t in waiters && t != traceID ==> waiters[t].arr[..waiters[t].len] == old(Waiting(t))
    {
      var chs := waiters[traceID];
      ghost var before := Waiting(traceID);
      Shift(chs, i);
      assert chs.arr[..chs.len - 1] == before[..i] + before[i + 1..];
    }

    method RemoveAt(traceID: string, i: nat)
      requires Valid() && i < |Waiting(traceID)|
      modifies this`waiters, Backing()
      ensures Valid()
      ensures Waiting(traceID) == old(Waiting(traceID)[..i] + Waiting(traceID)[i + 1..])
      ensures forall t :: t != traceID ==> Waiting(t) == old(Waiting(t))
      ensures Backing() <= old(Backing())
    {
      ShiftEntry(traceID, i);
      SetSlice(traceID, Slice(waiters[traceID].arr, waiters[traceID].len - 1));
    }

    /** The locked half of Notify: take the slice out of the map. */
    method Take(traceID: string) returns (chs: Slice)
      requires Valid()
      modifies this
      ensures Valid() && chs.len <= chs.arr.Length
      ensures chs.arr[..chs.len] == old(Waiting(traceID)) && null !in chs.arr[..chs.len]
      ensures chs.arr !in Backing()
      ensures taken == if old(Waiting(traceID)) == [] then old(taken) else old(taken) + {chs.arr}
      ensures Waiting(traceID) == [] && forall t :: t != traceID ==> Waiting(t) == old(Waiting(t))
      ensures Backing() <= old(Backing())
    {
      if traceID in waiters {
        chs := waiters[traceID];
        waiters := waiters - {traceID};
        taken := taken + {chs.arr};
      } else {
        chs := SliceOf(traceID);
      }
    }

    /** The unlocked half: send to each channel of the taken slice. */
    method Deliver(chs: Slice, result: TaskResult)
      requires chs.len <= chs.arr.Length && null !in chs.arr[..chs.len]
      modifies set ch | ch in chs.arr[..chs.len] :: ch
      ensures forall ch: Channel :: ch in chs.arr[..chs.len] ==>
                ch.buffer == if old(ch.buffer) == None then Some(result) else old(ch.buffer)
    {
      for i := 0 to chs.len
        invariant forall ch: Channel :: ch in chs.arr[..i] ==>
                    ch.buffer == if old(ch.buffer) == None then Some(result) else old(ch.buffer)
        invariant forall ch: Channel :: ch in chs.arr[..chs.len] && ch !in chs.arr[..i] ==> ch.buffer == old(ch.buffer)
      {
        assert chs.arr[i] in chs.arr[..chs.len];
        var ch: Channel := chs.arr[i];
        ch.TrySend(result);
        assert chs.arr[..i + 1] == chs.arr[..i] + [chs.arr[i]];
      }
    }

    /** Notify, uninterrupted: everyone registered hears, nobody else does, and the trace has no waiters left. */
    method Notify(traceID: string, result: TaskResult)
      requires Valid()
      modifies this, set ch | ch in Waiting(traceID) :: ch
      ensures Valid() && Waiting(traceID) == []
      ensures forall t :: t != traceID ==> Waiting(t) == old(Waiting(t))
      ensures forall ch: Channel :: ch in old(Waiting(traceID)) ==>
                ch.buffer == if old(ch.buffer) == None then Some(result) else old(ch.buffer)
    {
      var chs := Take(traceID);
      Deliver(chs, result);
    }

    /** While a taken slice is still being walked, no Register or Unregister can alter it. */
    method TakenSliceIsStable(chs: Slice, traceID: string, other: string, ch: Channel)
      requires Valid() && chs.arr in taken && chs.len <= chs.arr.Length
      modifies this`waiters, Backing()
      ensures Valid() && chs.arr in taken
      ensures chs.arr[..] == old(chs.arr[..])
    {
      assert chs.arr !in Backing();
      var _ := Register(traceID);
      assert chs.arr !in Backing();
      Unregister(other, ch);
    }
  }
}
