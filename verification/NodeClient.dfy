/**
 * node/internal/ws/client.go: the reconnect machine. Locked sections, dials in flight, pumps that end and
 * reconnect loops interleave freely; a select whose timer and context are both ready may take either branch.
 */
module NodeClient {
  import opened TaskStore

  /** The fields of Client that the mutex guards; connections and contexts are known by number. */
  datatype Fields = Fields(conn: Option<nat>, connected: bool, stopReconnect: Option<nat>,
                           connCancel: Option<nat>, reconnectAttempts: nat)

  /** Where a reconnectLoop is: at the top of its loop, in its select, or in connect's dial. */
  datatype Loop = Deciding | Sleeping | Dialing

  datatype Client = Client(f: Fields, cancelled: set<nat>, parentDone: bool, loops: map<nat, Loop>,
                           dials: set<nat>, pumps: set<nat>, next: nat)

  const New := Client(Fields(None, false, None, None, 0), {}, false, map[], {}, {}, 0)

  datatype Step =
    | Connect                          // a caller starts to dial
    | Reconnect                        // its locked section; the dial follows
    | Dialed(d: nat, ok: bool)         // a caller's dial returns
    | PumpEnds(k: nat)                 // onDisconnect of connection k
    | LoopDecides(l: nat)
    | LoopWakes(l: nat)
    | LoopQuits(l: nat)
    | LoopDialed(l: nat, ok: bool)
    | Close
    | Shutdown                         // the parent context is cancelled

  /** ctx.Err() != nil */
  predicate Stopped(c: Client, ctx: nat) {
    c.parentDone || ctx in c.cancelled
  }

  function Cancelled(cancelled: set<nat>, ctx: Option<nat>): set<nat> {
    if ctx.Some? then cancelled + {ctx.value} else cancelled
  }

  /** connect after a successful dial. */
  function Install(c: Client): Client {
    var k := c.next;
    c.(cancelled := Cancelled(c.cancelled, c.f.stopReconnect), pumps := c.pumps + {k}, next := k + 1,
       f := Fields(Some(k), true, None, Some(k), 0))
  }

  function Dropped(c: Client): Client {
    c.(cancelled := Cancelled(Cancelled(c.cancelled, c.f.stopReconnect), c.f.connCancel),
       f := c.f.(conn := None, connected := false, stopReconnect := None))
  }

  /** onDisconnect, fired at most once per connection: its pumps are then gone. */
  function Disconnected(c: Client, k: nat): Client {
    var c1 := c.(cancelled := c.cancelled + {k}, pumps := c.pumps - {k});
    if c.f.conn != Some(k) then c1
    else
      var c2 := c1.(f := c.f.(conn := None, connected := false));
      if c.parentDone then c2
      else c2.(f := c2.f.(stopReconnect := Some(c.next)), loops := c.loops[c.next := Deciding], next := c.next + 1)
  }

  function Decided(c: Client, l: nat): Client {
    if Stopped(c, l) then c.(loops := c.loops - {l})
    else c.(loops := c.loops[l := Sleeping], f := c.f.(reconnectAttempts := c.f.reconnectAttempts + 1))
  }

  function Next(c: Client, s: Step): Client {
    match s
    case Connect => c.(dials := c.dials + {c.next}, next := c.next + 1)
    case Reconnect => Dropped(c).(dials := c.dials + {c.next}, next := c.next + 1)
    case Dialed(d, ok) =>
      if d !in c.dials then c
      else if ok then Install(c.(dials := c.dials - {d})) else c.(dials := c.dials - {d})
    case PumpEnds(k) => if k in c.pumps then Disconnected(c, k) else c
    case LoopDecides(l) => if l in c.loops && c.loops[l] == Deciding then Decided(c, l) else c
    case LoopWakes(l) => if l in c.loops && c.loops[l] == Sleeping then c.(loops := c.loops[l := Dialing]) else c
    case LoopQuits(l) =>
      if l in c.loops && c.loops[l] == Sleeping && Stopped(c, l) then c.(loops := c.loops - {l}) else c
    case LoopDialed(l, ok) =>
      if l !in c.loops || c.loops[l] != Dialing then c
      else if ok then Install(c.(loops := c.loops - {l})) else c.(loops := c.loops[l := Deciding])
    case Close => Dropped(c).(f := Dropped(c).f.(connCancel := None))
    case Shutdown => c.(parentDone := true)
  }

  // ---- the invariant ----

  ghost predicate Consistent(c: Client) {
    && (c.f.connected <==> c.f.conn.Some?)
    && (c.f.conn.Some? ==> c.f.stopReconnect.None? && c.f.connCancel == c.f.conn && Running(c, c.f.conn.value))
  }

  /** The connection's pumps run and its context is not cancelled. */
  predicate Running(c: Client, k: nat) {
    k in c.pumps && k !in c.cancelled
  }

  /** The only loop that is not cancelled is the one stopReconnect stops. */
  ghost predicate OneLoop(c: Client) {
    && (forall l :: l in c.loops && l !in c.cancelled ==> c.f.stopReconnect == Some(l))
    && (c.f.stopReconnect.Some? ==> LoopPending(c, c.f.stopReconnect.value))
  }

  predicate LoopPending(c: Client, l: nat) {
    l !in c.cancelled && (c.parentDone || l in c.loops)
  }

  /** Numbers already given out. */
  ghost predicate Numbered(c: Client) {
    && (forall k :: k in c.pumps || k in c.loops || k in c.cancelled || k in c.dials ==> k < c.next)
    && (c.f.stopReconnect.Some? ==> c.f.stopReconnect.value < c.next)
    && (c.f.connCancel.Some? ==> c.f.connCancel.value < c.next && c.f.connCancel.value !in c.loops)
    && (forall k :: k in c.pumps ==> k !in c.loops && c.f.stopReconnect != Some(k))
    && (c.f.stopReconnect.Some? ==> c.f.connCancel != c.f.stopReconnect)
  }

  ghost predicate Good(c: Client) {
    Consistent(c) && OneLoop(c) && Numbered(c)
  }

  lemma NewIsGood()
    ensures Good(New)
  {
  }

  lemma InstallKeepsGood(c: Client)
    requires Good(c)
    ensures Good(Install(c))
  {
  }

  lemma NextKeepsGood(c: Client, s: Step)
    requires Good(c)
    ensures Good(Next(c, s))
  {
    match s
    case Dialed(d, ok) => if d in c.dials && ok { InstallKeepsGood(c.(dials := c.dials - {d})); }
    case LoopDialed(l, ok) =>
      if l in c.loops && c.loops[l] == Dialing && ok {
        InstallFromLoop(c, l);
      }
    case _ =>
  }

  /** A loop that connects leaves with its own context cancelled. */
  lemma InstallFromLoop(c: Client, l: nat)
    requires Good(c) && l in c.loops
    ensures Good(Install(c.(loops := c.loops - {l})))
  {
  }

  /** The code itself: each locked section updates the fields in place, and is one step. */
  class WsClient {
    var conn: Option<nat>
    var connected: bool
    var stopReconnect: Option<nat>
    var connCancel: Option<nat>
    var reconnectAttempts: nat

    // what runs around it: cancelled contexts, goroutines, dials
    var cancelled: set<nat>
    var parentDone: bool
    var loops: map<nat, Loop>
    var dials: set<nat>
    var pumps: set<nat>
    var next: nat

    /** What has happened to this client so far. */
    ghost var steps: seq<Step>

    /** The fields are what the steps make of a new client. */
    ghost predicate Valid()
      reads this
    {
      State() == After(New, steps)
    }

    function State(): Client
      reads this
    {
      Client(Fields(conn, connected, stopReconnect, connCancel, reconnectAttempts),
             cancelled, parentDone, loops, dials, pumps, next)
    }

    constructor ()
      ensures Valid() && State() == New && steps == []
    {
      steps := [];
      conn, connected, stopReconnect, connCancel, reconnectAttempts := None, false, None, None, 0;
      cancelled, parentDone, loops, dials, pumps, next := {}, false, map[], {}, {}, 0;
    }

    /** Records that a step has just been carried out. */
    ghost method Note(s: Step, before: Client)
      requires before == After(New, steps) && State() == Next(before, s)
      modifies this`steps
      ensures Valid() && steps == old(steps) + [s]
    {
      AfterMore(New, steps, s);
      steps := steps + [s];
    }

    method Fresh() returns (n: nat)
      modifies this`next
      ensures n == old(next) && next == n + 1
    {
      n := next;
      next := next + 1;
    }

    method StopReconnectLoop()
      modifies this`cancelled, this`stopReconnect
      ensures cancelled == Cancelled(old(cancelled), old(stopReconnect)) && stopReconnect == None
    {
      if stopReconnect.Some? {
        cancelled := cancelled + {stopReconnect.value};
        stopReconnect := None;
      }
    }

    /** connect, once the dial has succeeded. */
    method InstallConnection()
      modifies this
      ensures State() == Install(old(State())) && steps == old(steps)
    {
      var k := Fresh();
      StopReconnectLoop();
      conn, connCancel, connected, reconnectAttempts := Some(k), Some(k), true, 0;
      pumps := pumps + {k};
    }

    /** The dial of Connect or Reconnect returns. */
    method FinishDial(d: nat, ok: bool)
      requires d in dials
      requires Valid()
      modifies this
      ensures Valid() && steps == old(steps) + [Dialed(d, ok)]
      ensures State() == Next(old(State()), Dialed(d, ok))
    {
      ghost var before := State();
      dials := dials - {d};
      if ok { InstallConnection(); }
      Note(Dialed(d, ok), before);
    }

    /** A new reconnectLoop with a context of its own. */
    method StartLoop()
      modifies this`next, this`stopReconnect, this`loops
      ensures next == old(next) + 1 && stopReconnect == Some(old(next)) && loops == old(loops)[old(next) := Deciding]
    {
      var l := Fresh();
      stopReconnect := Some(l);
      loops := loops[l := Deciding];
    }

    /** onDisconnect of one connection; its once lets it run a single time. */
    method OnDisconnect(k: nat)
      requires k in pumps
      requires Valid()
      modifies this
      ensures Valid() && steps == old(steps) + [PumpEnds(k)]
      ensures State() == Next(old(State()), PumpEnds(k))
    {
      ghost var before := State();
      cancelled, pumps := cancelled + {k}, pumps - {k};
      var isCurrentConn := conn == Some(k);
      if isCurrentConn { connected, conn := false, None; }
      var shouldReconnect := isCurrentConn && !parentDone;
      if shouldReconnect { StartLoop(); }
      Note(PumpEnds(k), before);
    }

    method StartDial()
      modifies this`dials, this`next
      ensures dials == old(dials) + {old(next)} && next == old(next) + 1
    {
      var d := Fresh();
      dials := dials + {d};
    }

    method Connect()
      requires Valid()
      modifies this
      ensures Valid() && steps == old(steps) + [Step.Connect]
      ensures State() == Next(old(State()), Step.Connect)
    {
      ghost var before := State();
      StartDial();
      Note(Step.Connect, before);
    }

    /** Reconnect up to its dial. */
    method Reconnect()
      requires Valid()
      modifies this
      ensures Valid() && steps == old(steps) + [Step.Reconnect]
      ensures State() == Next(old(State()), Step.Reconnect)
    {
      ghost var before := State();
      StopReconnectLoop();
      if connCancel.Some? { cancelled := cancelled + {connCancel.value}; }
      if conn.Some? { conn := None; }
      connected := false;
      StartDial();
      Note(Step.Reconnect, before);
    }

    method Close()
      requires Valid()
      modifies this
      ensures Valid() && steps == old(steps) + [Step.Close]
      ensures State() == Next(old(State()), Step.Close)
    {
      ghost var before := State();
      connected := false;
      StopReconnectLoop();
      if connCancel.Some? {
        cancelled := cancelled + {connCancel.value};
        connCancel := None;
      }
      if conn.Some? { conn := None; }
      Note(Step.Close, before);
    }

    /** reconnectLoop from its top to its select. */
    method LoopDecides(l: nat)
      requires l in loops && loops[l] == Deciding
      requires Valid()
      modifies this
      ensures Valid() && steps == old(steps) + [Step.LoopDecides(l)]
      ensures State() == Next(old(State()), Step.LoopDecides(l))
    {
      ghost var before := State();
      if parentDone || l in cancelled {
        loops := loops - {l};
        Note(Step.LoopDecides(l), before);
        return;
      }
      reconnectAttempts := reconnectAttempts + 1;
      loops := loops[l := Sleeping];
      Note(Step.LoopDecides(l), before);
    }

    /** reconnectLoop's select takes the timer, and it starts to dial. */
    method LoopWakes(l: nat)
      requires l in loops && loops[l] == Sleeping
      requires Valid()
      modifies this
      ensures Valid() && steps == old(steps) + [Step.LoopWakes(l)]
      ensures State() == Next(old(State()), Step.LoopWakes(l))
    {
      ghost var before := State();
      loops := loops[l := Dialing];
      Note(Step.LoopWakes(l), before);
    }

    /** reconnectLoop's select takes ctx.Done. */
    method LoopQuits(l: nat)
      requires l in loops && loops[l] == Sleeping && Stopped(State(), l)
      requires Valid()
      modifies this
      ensures Valid() && steps == old(steps) + [Step.LoopQuits(l)]
      ensures State() == Next(old(State()), Step.LoopQuits(l))
    {
      ghost var before := State();
      loops := loops - {l};
      Note(Step.LoopQuits(l), before);
    }

    /** The node shuts down: the parent context is cancelled. */
    method Shutdown()
      requires Valid()
      modifies this
      ensures Valid() && steps == old(steps) + [Step.Shutdown]
      ensures State() == Next(old(State()), Step.Shutdown)
    {
      ghost var before := State();
      parentDone := true;
      Note(Step.Shutdown, before);
    }

    /** Whatever was called on it, and in whatever order, the client is consistent. */
    lemma IsGood()
      requires Valid()
      ensures Good(State())
    {
      AlwaysGood(steps);
    }

    /** reconnectLoop when its connect returns. */
    method LoopDialed(l: nat, ok: bool)
      requires l in loops && loops[l] == Dialing
      requires Valid()
      modifies this
      ensures Valid() && steps == old(steps) + [Step.LoopDialed(l, ok)]
      ensures State() == Next(old(State()), Step.LoopDialed(l, ok))
    {
      ghost var before := State();
      if !ok {
        loops := loops[l := Deciding];
        Note(Step.LoopDialed(l, ok), before);
        return;
      }
      loops := loops - {l};
      InstallConnection();
      Note(Step.LoopDialed(l, ok), before);
    }
  }

  function After(c: Client, steps: seq<Step>): Client {
    if steps == [] then c else Next(After(c, steps[..|steps| - 1]), steps[|steps| - 1])
  }

  /** Whatever is interleaved, the client is consistent and has at most one loop that is not cancelled. */
  lemma {:induction false} AlwaysGood(steps: seq<Step>)
    ensures Good(After(New, steps))
  {
    if steps == [] {
      NewIsGood();
    } else {
      AlwaysGood(steps[..|steps| - 1]);
      NextKeepsGood(After(New, steps[..|steps| - 1]), steps[|steps| - 1]);
    }
  }

  // ---- superseded connections ----

  /** Connection k was made and is not the current one. */
  predicate Superseded(c: Client, k: nat) {
    k < c.next && c.f.conn != Some(k)
  }

  lemma NextKeepsSuperseded(c: Client, s: Step, k: nat)
    requires Superseded(c, k)
    ensures Superseded(Next(c, s), k)
  {
  }

  lemma AfterMore(c: Client, a: seq<Step>, s: Step)
    ensures After(c, a + [s]) == Next(After(c, a), s)
  {
    assert (a + [s])[..|a|] == a;
  }

  /**
   * A connection that is no longer current never becomes so again, and however late its disconnect handler
   * fires, it changes no field of the client and starts no loop.
   */
  lemma {:induction false} SupersededForGood(before: seq<Step>, later: seq<Step>, k: nat)
    requires Superseded(After(New, before), k)
    ensures var c := After(New, before + later); var c' := Next(c, PumpEnds(k));
      Superseded(c, k) && c'.f == c.f && c'.loops == c.loops
  {
    if later == [] {
      assert before + later == before;
    } else {
      var n := |later| - 1;
      SupersededForGood(before, later[..n], k);
      assert before + later == (before + later[..n]) + [later[n]];
      AfterMore(New, before + later[..n], later[n]);
      NextKeepsSuperseded(After(New, before + later[..n]), later[n], k);
    }
  }

  /** Every connection whose pumps run uncancelled is the current one. */
  ghost predicate Sole(c: Client) {
    forall k: nat :: Running(c, k) ==> c.f.conn == Some(k)
  }

  predicate Installs(c: Client, s: Step) {
    (s.Dialed? && s.ok && s.d in c.dials) || (s.LoopDialed? && s.ok && s.l in c.loops && c.loops[s.l] == Dialing)
  }

  /** A connection is left running behind the current one exactly when a dial succeeds while still connected. */
  lemma SoleKeptIff(c: Client, s: Step)
    requires Good(c) && Sole(c)
    ensures Sole(Next(c, s)) <==> !(Installs(c, s) && c.f.conn.Some?)
  {
    if Installs(c, s) && c.f.conn.Some? {
      var k, c' := c.f.conn.value, Next(c, s);
      assert Running(c', k) && c'.f.conn != Some(k);
    }
  }

  // ---- does the client come back by itself? ----

  /** Connected, or something is under way that will try to be. */
  ghost predicate Recovering(c: Client) {
    c.f.conn.Some? || c.dials != {} || exists l :: l in c.loops && !Stopped(c, l)
  }

  /** The one dial left has failed, with no connection and no loop behind it. */
  predicate LastDialFails(c: Client, s: Step) {
    s.Dialed? && !s.ok && c.dials == {s.d} && c.f.conn.None? && c.f.stopReconnect.None?
  }

  lemma LoopsRecover(c: Client)
    requires Good(c) && !c.parentDone
    ensures (exists l :: l in c.loops && !Stopped(c, l)) <==> c.f.stopReconnect.Some?
  {
    if c.f.stopReconnect.Some? {
      assert c.f.stopReconnect.value in c.loops && !Stopped(c, c.f.stopReconnect.value);
    }
  }

  /**
   * Until the node is shut down, a client that is recovering goes on recovering, with exactly three
   * exceptions: Close with no dial under way, a failed dial of Connect or Reconnect with no loop behind it, and
   * the shutdown itself with neither a connection nor a dial. So a manual Reconnect that fails leaves the node
   * offline until someone reconnects it again, and a shutdown ends every reconnect loop.
   */
  lemma RecoveryEndsIff(c: Client, s: Step)
    requires Good(c) && !c.parentDone && Recovering(c)
    ensures !Recovering(Next(c, s)) <==>
            (s.Close? && c.dials == {}) || LastDialFails(c, s) || (s.Shutdown? && c.f.conn.None? && c.dials == {})
  {
    NextKeepsGood(c, s);
    LoopsRecover(c);
    if !s.Shutdown? { LoopsRecover(Next(c, s)); }
    if s.Dialed? && s.d in c.dials && !s.ok {
      assert c.dials - {s.d} == {} <==> c.dials == {s.d};
    }
  }

  lemma FailedReconnectStaysOffline() returns (steps: seq<Step>)
    ensures var c := After(New, steps); !c.parentDone && !Recovering(c) && Reconnect in steps && Close !in steps
  {
    var s0 := [Connect];
    var s1 := s0 + [Dialed(0, true)];
    var s2 := s1 + [Reconnect];
    steps := s2 + [Dialed(2, false)];
    assert s0[..0] == [] && After(New, s0) == Next(New, Connect);
    assert s1[..1] == s0 && s2[..2] == s1 && steps[..3] == s2;
    assert After(New, s1).f == Fields(Some(1), true, None, Some(1), 0);
    assert After(New, s2).dials == {2} && After(New, s2).loops == map[];
    assert After(New, steps).dials == {};
  }

  // ---- is Close permanent? ----

  /** Nobody calls Connect or Reconnect any more. */
  ghost predicate Unattended(steps: seq<Step>) {
    forall i | 0 <= i < |steps| :: !steps[i].Connect? && !steps[i].Reconnect?
  }

  ghost predicate StaysClosed(c: Client) {
    forall steps | Unattended(steps) :: After(c, steps).f.conn.None?
  }

  /** No dial is in flight, and every loop left is about to see that it was cancelled. */
  ghost predicate Quiet(c: Client) {
    && c.f.conn.None? && c.dials == {}
    && forall l :: l in c.loops ==> c.loops[l] == Deciding && Stopped(c, l)
  }

  lemma {:induction false} QuietStays(c: Client, steps: seq<Step>)
    requires Quiet(c) && Unattended(steps)
    ensures Quiet(After(c, steps))
  {
    if steps != [] {
      var n := |steps| - 1;
      QuietStays(c, steps[..n]);
      assert !steps[n].Connect? && !steps[n].Reconnect?;
    }
  }

  lemma OneStep(c: Client, s: Step)
    requires !s.Connect? && !s.Reconnect?
    ensures Unattended([s]) && After(c, [s]) == Next(c, s)
  {
    assert [s][..0] == [];
    assert After(c, [s][..0]) == c;
  }

  lemma TwoSteps(c: Client, s: Step, t: Step)
    requires !s.Connect? && !s.Reconnect? && !t.Connect? && !t.Reconnect?
    ensures Unattended([s, t]) && After(c, [s, t]) == Next(Next(c, s), t)
  {
    OneStep(c, s);
    assert [s, t][..1] == [s];
  }

  /** A dial in flight or a loop past its check can still connect. */
  lemma UnquietReconnects(c: Client) returns (steps: seq<Step>)
    requires c.dials != {} || exists l :: l in c.loops && c.loops[l] != Deciding
    ensures Unattended(steps) && After(c, steps).f.conn == Some(c.next)
  {
    if c.dials != {} {
      var d :| d in c.dials;
      steps := [Dialed(d, true)];
      OneStep(c, steps[0]);
    } else {
      var l :| l in c.loops && c.loops[l] != Deciding;
      if c.loops[l] == Dialing {
        steps := [LoopDialed(l, true)];
        OneStep(c, steps[0]);
      } else {
        steps := [LoopWakes(l), LoopDialed(l, true)];
        TwoSteps(c, steps[0], steps[1]);
      }
    }
  }

  /**
   * "Permanently closes the connection": left alone, the client stays closed exactly when, at the moment of
   * Close, no dial was in flight and no reconnect loop was past its check; cancelling the context does not
   * recall a dial, and connect installs whatever it gets.
   */
  lemma CloseIsPermanentIff(before: seq<Step>)
    ensures var c := After(New, before);
      StaysClosed(Next(c, Close)) <==> c.dials == {} && forall l :: l in c.loops ==> c.loops[l] == Deciding
  {
    var c := After(New, before);
    AlwaysGood(before);
    var closed := Next(c, Close);
    if c.dials == {} && forall l :: l in c.loops ==> c.loops[l] == Deciding {
      assert Quiet(closed);
      forall steps | Unattended(steps) ensures After(closed, steps).f.conn.None? {
        QuietStays(closed, steps);
      }
    } else {
      var steps := UnquietReconnects(closed);
    }
  }

  // ---- is a shutdown final? ----

  /** Left alone, the client makes no other connection than the one it has. */
  ghost predicate NeverReconnects(c: Client) {
    forall steps | Unattended(steps) :: After(c, steps).f.conn.None? || After(c, steps).f.conn == c.f.conn
  }

  /** Shut down, with no dial in flight and every loop about to end, on connection k or none. */
  ghost predicate WindingDown(c: Client, k: Option<nat>) {
    && c.parentDone && (c.f.conn.None? || c.f.conn == k) && c.dials == {}
    && forall l :: l in c.loops ==> c.loops[l] == Deciding
  }

  lemma {:induction false} WindingDownStays(c: Client, steps: seq<Step>, k: Option<nat>)
    requires WindingDown(c, k) && Unattended(steps)
    ensures WindingDown(After(c, steps), k)
  {
    if steps != [] {
      var n := |steps| - 1;
      WindingDownStays(c, steps[..n], k);
      assert !steps[n].Connect? && !steps[n].Reconnect?;
    }
  }

  /**
   * Once the parent context is cancelled and the client is left alone, it makes no further connection iff, at
   * that moment, no dial was in flight and no reconnect loop was past its check; a drop then starts no loop.
   */
  lemma ShutdownIsFinalIff(before: seq<Step>)
    ensures var c := After(New, before);
      NeverReconnects(Next(c, Shutdown)) <==> c.dials == {} && forall l :: l in c.loops ==> c.loops[l] == Deciding
  {
    var c := After(New, before);
    AlwaysGood(before);
    var down := Next(c, Shutdown);
    if c.dials == {} && forall l :: l in c.loops ==> c.loops[l] == Deciding {
      forall steps | Unattended(steps)
        ensures After(down, steps).f.conn.None? || After(down, steps).f.conn == c.f.conn
      {
        WindingDownStays(down, steps, c.f.conn);
      }
    } else {
      var steps := UnquietReconnects(down);
      assert After(down, steps).f.conn != down.f.conn;
    }
  }

  // ---- the attempts that the back-off is computed from ----

  function TriesNext(c: Client, s: Step, n: nat): nat {
    if Installs(c, s) then 0
    else if s.LoopDecides? && s.l in c.loops && c.loops[s.l] == Deciding && !Stopped(c, s.l) then n + 1
    else n
  }

  /** How often a reconnect loop has gone on to wait since a connection was last made. */
  function Tries(steps: seq<Step>): nat {
    if steps == [] then 0
    else TriesNext(After(New, steps[..|steps| - 1]), steps[|steps| - 1], Tries(steps[..|steps| - 1]))
  }

  /** In every interleaving that is what reconnectAttempts counts: it grows by one a try and a connection resets it. */
  lemma {:induction false} AttemptsCountTries(steps: seq<Step>)
    ensures After(New, steps).f.reconnectAttempts == Tries(steps)
  {
    if steps != [] { AttemptsCountTries(steps[..|steps| - 1]); }
  }
}
