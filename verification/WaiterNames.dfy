/**
 * The slices of ResultWaiter seen as what the server machine keeps: for each trace, the names of the requests
 * whose channels wait for it. Register, Unregister and Notify on the shared arrays are its Joined, Left and
 * Notify, so what is proved of the machine's waiters holds of the slices.
 */
module WaiterNames {
  import opened TaskStore
  import opened ResultWaiter
  import Machine = GalleryMachine

  type Naming = map<Channel, string>

  /** No two channels have one name. */
  ghost predicate OneToOne(names: Naming) {
    forall a, b :: a in names && b in names && names[a] == names[b] ==> a == b
  }

  ghost predicate AllNamed(chs: seq<Channel?>, names: Naming) {
    forall ch :: ch in chs ==> ch != null && ch in names
  }

  ghost function NamesOf(chs: seq<Channel?>, names: Naming): (r: seq<string>)
    requires AllNamed(chs, names)
    ensures |r| == |chs| && forall i :: 0 <= i < |chs| ==> r[i] == names[chs[i]]
  {
    seq(|chs|, i requires 0 <= i < |chs| => assert chs[i] in chs; names[chs[i]])
  }

  lemma NamesOfParts(a: seq<Channel?>, ch: Channel, b: seq<Channel?>, names: Naming)
    requires AllNamed(a + ([ch] + b), names)
    ensures AllNamed(a, names) && AllNamed(b, names) && ch in names
    ensures NamesOf(a + ([ch] + b), names) == NamesOf(a, names) + ([names[ch]] + NamesOf(b, names))
  {
    var all := a + ([ch] + b);
    assert forall x :: x in a ==> x in all;
    assert forall x :: x in b ==> x in all;
    assert ch in all;
  }

  lemma NamesOfConcat(a: seq<Channel?>, b: seq<Channel?>, names: Naming)
    requires AllNamed(a, names) && AllNamed(b, names)
    ensures AllNamed(a + b, names) && NamesOf(a + b, names) == NamesOf(a, names) + NamesOf(b, names)
  {
  }

  lemma NameApart(chs: seq<Channel?>, ch: Channel, names: Naming)
    requires AllNamed(chs, names) && ch in names && OneToOne(names) && ch !in chs
    ensures names[ch] !in NamesOf(chs, names)
  {
    forall i | 0 <= i < |chs| ensures NamesOf(chs, names)[i] != names[ch] {
      assert chs[i] in chs;
    }
  }

  lemma NamesOfRemoved(chs: seq<Channel?>, ch: Channel, names: Naming)
    requires AllNamed(chs, names) && ch in names && OneToOne(names)
    ensures AllNamed(RemoveFirst(chs, ch), names)
    ensures NamesOf(RemoveFirst(chs, ch), names) == RemoveFirst(NamesOf(chs, names), names[ch])
  {
    if ch !in chs {
      NameApart(chs, ch, names);
      AbsentStays<Channel?>(chs, ch);
      AbsentStays(NamesOf(chs, names), names[ch]);
    } else {
      var a, b := FirstAt(chs, ch);
      NamesOfParts(a, ch, b, names);
      NamesOfConcat(a, b, names);
      NameApart(a, ch, names);
      RemoveFirstAfter<Channel?>(a, ch, b);
      RemoveFirstAfter(NamesOf(a, names), names[ch], NamesOf(b, names));
    }
  }

  lemma {:induction false} FirstAt(chs: seq<Channel?>, ch: Channel) returns (a: seq<Channel?>, b: seq<Channel?>)
    requires ch in chs
    ensures chs == a + ([ch] + b) && ch !in a
  {
    if chs[0] == ch {
      a, b := [], chs[1..];
    } else {
      a, b := FirstAt(chs[1..], ch);
      a := [chs[0]] + a;
    }
  }

  // ---- all traces at once ----

  /** The channels of every trace that has an entry. */
  type Contents = map<string, seq<Channel?>>

  function At(cs: Contents, t: string): seq<Channel?> {
    if t in cs then cs[t] else []
  }

  ghost predicate Named(cs: Contents, names: Naming) {
    forall t :: t in cs ==> cs[t] != [] && AllNamed(cs[t], names)
  }

  ghost function ViewOf(cs: Contents, names: Naming): map<string, seq<string>>
    requires Named(cs, names)
  {
    map t | t in cs :: NamesOf(cs[t], names)
  }

  /** What one trace's entry became; the others are as they were. */
  ghost predicate OneEntry(cs: Contents, cs': Contents, t: string, chs: seq<Channel?>) {
    && At(cs', t) == chs && (forall u :: u != t ==> At(cs', u) == At(cs, u))
    && (forall u :: u in cs' ==> cs'[u] != [])
  }

  lemma OthersKept(cs: Contents, cs': Contents, t: string, chs: seq<Channel?>, u: string)
    requires OneEntry(cs, cs', t, chs) && u != t && forall v :: v in cs ==> cs[v] != []
    ensures u in cs' <==> u in cs
    ensures u in cs ==> cs'[u] == cs[u]
  {
    assert At(cs', u) == At(cs, u);
  }

  lemma JoinedNames(cs: Contents, cs': Contents, names: Naming, t: string, ch: Channel, rid: string)
    requires Named(cs, names) && OneToOne(names) && ch !in names && rid !in names.Values
    requires OneEntry(cs, cs', t, At(cs, t) + [ch])
    ensures var names' := names[ch := rid];
      OneToOne(names') && Named(cs', names') && ViewOf(cs', names') == Machine.Joined(ViewOf(cs, names), t, rid)
  {
    var names' := names[ch := rid];
    forall u | u in cs' ensures AllNamed(cs'[u], names') {
      if u != t { OthersKept(cs, cs', t, At(cs, t) + [ch], u); }
    }
    var v, v' := Machine.Joined(ViewOf(cs, names), t, rid), ViewOf(cs', names');
    forall u ensures (u in v <==> u in v') && (u in v ==> v[u] == v'[u]) {
      if u != t { OthersKept(cs, cs', t, At(cs, t) + [ch], u); }
    }
  }

  lemma LeftNames(cs: Contents, cs': Contents, names: Naming, t: string, ch: Channel)
    requires Named(cs, names) && OneToOne(names) && ch in names
    requires OneEntry(cs, cs', t, RemoveFirst(At(cs, t), ch))
    ensures Named(cs', names) && ViewOf(cs', names) == Machine.Left(ViewOf(cs, names), t, names[ch])
  {
    NamesOfRemoved(At(cs, t), ch, names);
    forall u | u in cs' ensures AllNamed(cs'[u], names) {
      if u != t { OthersKept(cs, cs', t, RemoveFirst(At(cs, t), ch), u); }
    }
    var v, v' := ViewOf(cs, names), ViewOf(cs', names);
    assert Machine.WaitersOf(v, t) == NamesOf(At(cs, t), names);
    forall u | u != t ensures (u in v <==> u in v') && (u in v ==> v[u] == v'[u]) {
      OthersKept(cs, cs', t, RemoveFirst(At(cs, t), ch), u);
    }
    EntrySet(v, v', t, RemoveFirst(Machine.WaitersOf(v, t), names[ch]));
  }

  lemma EntrySet(v: map<string, seq<string>>, v': map<string, seq<string>>, t: string, rest: seq<string>)
    requires forall u :: u != t ==> (u in v <==> u in v') && (u in v ==> v[u] == v'[u])
    requires if t in v' then v'[t] == rest != [] else rest == []
    ensures v' == if rest == [] then v - {t} else v[t := rest]
  {
  }

  lemma NotifiedNames(cs: Contents, cs': Contents, names: Naming, t: string)
    requires Named(cs, names) && OneEntry(cs, cs', t, [])
    ensures Named(cs', names) && ViewOf(cs', names) == ViewOf(cs, names) - {t}
  {
    forall u | u in cs' ensures AllNamed(cs'[u], names) {
      if u != t { OthersKept(cs, cs', t, [], u); }
    }
    var v, v' := ViewOf(cs, names) - {t}, ViewOf(cs', names);
    forall u ensures (u in v <==> u in v') && (u in v ==> v[u] == v'[u]) {
      if u != t { OthersKept(cs, cs', t, [], u); }
    }
  }

  // ---- the slices ----

  class NamedWaiter {
    const waiter: Waiter
    ghost var names: Naming

    ghost function Channels(): Contents
      requires waiter.Valid()
      reads waiter, waiter.Backing()
    {
      map t | t in waiter.waiters :: waiter.Waiting(t)
    }

    ghost predicate Valid()
      reads this, waiter, waiter.Backing()
    {
      waiter.Valid() && OneToOne(names) && Named(Channels(), names)
    }

    /** The machine's waiters: one entry for each trace somebody waits for. */
    ghost function View(): map<string, seq<string>>
      requires Valid()
      reads this, waiter, waiter.Backing()
    {
      ViewOf(Channels(), names)
    }

    lemma ChannelsAt()
      requires waiter.Valid()
      ensures forall t :: At(Channels(), t) == waiter.Waiting(t)
      ensures forall t :: t in Channels() ==> Channels()[t] != []
    {
    }

    constructor ()
      ensures Valid() && View() == map[] && names == map[] && fresh(waiter)
    {
      waiter := new Waiter();
      names := map[];
    }

    method Register(traceID: string, ghost rid: string) returns (ch: Channel)
      requires Valid() && rid !in names.Values
      modifies this`names, waiter`waiters, waiter.Backing()
      ensures Valid() && fresh(ch) && ch.buffer == None && names == old(names)[ch := rid]
      ensures View() == Machine.Joined(old(View()), traceID, rid)
    {
      ghost var before, was := Channels(), names;
      ch := Enter(traceID);
      assert ch !in was;
      JoinedNames(before, Channels(), was, traceID, ch, rid);
      Rename(was[ch := rid]);
    }

    ghost method Rename(names': Naming)
      requires waiter.Valid() && OneToOne(names') && Named(Channels(), names')
      modifies this`names
      ensures Valid() && names == names' && View() == ViewOf(old(Channels()), names')
    {
      names := names';
    }

    method Enter(traceID: string) returns (ch: Channel)
      requires waiter.Valid()
      modifies waiter`waiters, waiter.Backing()
      ensures waiter.Valid() && fresh(ch) && ch.buffer == None
      ensures OneEntry(old(Channels()), Channels(), traceID, At(old(Channels()), traceID) + [ch])
    {
      ChannelsAt();
      ch := waiter.Register(traceID);
      ChannelsAt();
    }

    method Unregister(traceID: string, ch: Channel)
      requires Valid() && ch in names
      modifies waiter`waiters, waiter.Backing()
      ensures Valid() && names == old(names)
      ensures View() == Machine.Left(old(View()), traceID, names[ch])
    {
      ghost var before := Channels();
      ChannelsAt();
      waiter.Unregister(traceID, ch);
      ChannelsAt();
      LeftNames(before, Channels(), names, traceID, ch);
    }

    /** The locked half of Notify: the slice carries the names that the machine's delivery starts with. */
    method Take(traceID: string) returns (chs: Slice)
      requires Valid()
      modifies waiter
      ensures Valid() && names == old(names) && View() == old(View()) - {traceID}
      ensures chs.len <= chs.arr.Length && AllNamed(chs.arr[..chs.len], names)
      ensures NamesOf(chs.arr[..chs.len], names) == Machine.WaitersOf(old(View()), traceID)
    {
      ghost var before := Channels();
      ChannelsAt();
      chs := waiter.Take(traceID);
      ChannelsAt();
      NotifiedNames(before, Channels(), names, traceID);
    }

    /** Notify run through: the trace's waiters leave the map, and the machine's Send reaches each of them. */
    method Notify(traceID: string, result: TaskResult)
      requires Valid()
      modifies waiter, set ch | ch in waiter.Waiting(traceID) :: ch
      ensures Valid() && names == old(names)
      ensures View() == old(View()) - {traceID}
      ensures forall ch :: ch in names && names[ch] in Machine.WaitersOf(old(View()), traceID) ==>
                ch.buffer == if old(ch.buffer) == None then Some(result) else old(ch.buffer)
    {
      ghost var before := Channels();
      ChannelsAt();
      NamedAreWaiting(traceID);
      waiter.Notify(traceID, result);
      ChannelsAt();
      NotifiedNames(before, Channels(), names, traceID);
    }

    /** Being one-to-one, the names tell the channels. */
    lemma NamedAreWaiting(t: string)
      requires Valid()
      ensures forall ch :: ch in names && names[ch] in Machine.WaitersOf(View(), t) ==> ch in waiter.Waiting(t)
    {
      ChannelsAt();
      var chs := waiter.Waiting(t);
      forall ch | ch in names && names[ch] in Machine.WaitersOf(View(), t) ensures ch in chs {
        var i :| 0 <= i < |chs| && NamesOf(chs, names)[i] == names[ch];
        assert chs[i] in chs && names[chs[i]] == names[ch];
      }
    }
  }
}
