/** SFTP sessions against vault locks (client/src-tauri/src/commands.rs).

    An open reads the epoch, connects, and inserts its session while holding the
    epoch lock, if the epoch still stands and the vault is open. An invalidation
    bumps the epoch and empties the map under the same lock; closing a session by
    its id takes no lock at all. */
module SftpSessions {
  import opened Wrappers
  import opened Runs

  type Pid = nat

  /** Map ids are fresh, so a session is named by the open that made it. */
  type Session = Pid

  /** The guarded part of the app state, one thread at a time. */
  class Registry {
    var epoch: nat
    var table: set<Session>

    constructor ()
      ensures epoch == 0 && table == {}
    {
      epoch, table := 0, {};
    }

    /** The guarded tail of `sftp_open`: in the table, or handed back to be closed. */
    method Insert(session: Session, began: nat, unlocked: bool) returns (kept: bool)
      modifies this`table
      ensures kept <==> began == epoch && unlocked
      ensures table == if kept then old(table) + {session} else old(table)
    {
      kept := epoch == began && unlocked;
      if kept {
        table := table + {session};
      }
    }

    /** Everything in the table is handed back to be closed. */
    method Invalidate() returns (stale: set<Session>)
      modifies this
      ensures epoch == old(epoch) + 1 && table == {} && stale == old(table)
    {
      epoch := epoch + 1;
      stale := table;
      table := {};
    }

    method Remove(session: Session) returns (found: bool)
      modifies this`table
      ensures found == (session in old(table)) && table == old(table) - {session}
    {
      found := session in table;
      table := table - {session};
    }
  }

  datatype Open =
    | Connecting(began: nat)
    | Connected(began: nat)  // the epoch lock is taken and compared next
    | Guarded(began: nat)    // holding the lock: the vault is asked next
    | Inserting(began: nat)  // holding the lock
    | Refused(began: nat)    // holding the lock: the session is closed
    | Opened(began: nat)

  datatype Sweep =
    | Bumped                     // holding the lock: the map is listed next
    | Listed(found: set<Session>) // holding the lock: the map is emptied next
    | Closing(found: set<Session>)

  datatype State = State(
    epoch: nat,
    guard: Option<Pid>,
    unlocked: bool,
    table: set<Session>,
    closed: set<Session>,
    opens: map<Pid, Open>,
    sweeps: map<Pid, Sweep>,
    closing: set<Session>)

  datatype Event =
    | OpenBegins(p: Pid)
    | Connects(p: Pid)
    | Compares(p: Pid)
    | AsksVault(p: Pid)
    | Inserts(p: Pid)
    | Closes(p: Pid)
    | Bumps(p: Pid)
    | Lists(p: Pid)
    | Empties(p: Pid)
    | ClosesOne(p: Pid, x: Session)
    | Removes(x: Session)
    | ClosesRemoved(x: Session)
    | Locks
    | Unlocks

  ghost predicate Init(s: State) {
    s == State(s.epoch, None, s.unlocked, {}, {}, map[], map[], {})
  }

  function Move(s: State, p: Pid, o: Open): State {
    s.(opens := s.opens[p := o])
  }

  ghost predicate OpenStep(s: State, e: Event, s': State) {
    match e
    case OpenBegins(p) => p !in s.opens && p !in s.sweeps && s' == Move(s, p, Connecting(s.epoch))
    case Connects(p) => p in s.opens && s.opens[p].Connecting? && s' == Move(s, p, Connected(s.opens[p].began))
    case Compares(p) =>
      && p in s.opens && s.opens[p].Connected? && s.guard.None?
      && var began := s.opens[p].began;
      s' == Move(s, p, if s.epoch == began then Guarded(began) else Refused(began)).(guard := Some(p))
    case AsksVault(p) =>
      && p in s.opens && s.opens[p].Guarded?
      && s' == Move(s, p, if s.unlocked then Inserting(s.opens[p].began) else Refused(s.opens[p].began))
    case Inserts(p) =>
      && p in s.opens && s.opens[p].Inserting?
      && s' == Move(s, p, Opened(s.opens[p].began)).(guard := None, table := s.table + {p})
    case Closes(p) =>
      && p in s.opens && s.opens[p].Refused?
      && s' == Move(s, p, Opened(s.opens[p].began)).(guard := None, closed := s.closed + {p})
    case _ => false
  }

  ghost predicate SweepStep(s: State, e: Event, s': State) {
    match e
    case Bumps(p) =>
      && p !in s.opens && p !in s.sweeps && s.guard.None?
      && s' == s.(guard := Some(p), epoch := s.epoch + 1, sweeps := s.sweeps[p := Bumped])
    case Lists(p) => p in s.sweeps && s.sweeps[p].Bumped? && s' == s.(sweeps := s.sweeps[p := Listed(s.table)])
    case Empties(p) =>
      && p in s.sweeps && s.sweeps[p].Listed?
      && s' == s.(guard := None, table := {}, sweeps := s.sweeps[p := Closing(s.sweeps[p].found)])
    case ClosesOne(p, x) =>
      && p in s.sweeps && s.sweeps[p].Closing? && x in s.sweeps[p].found
      && s' == s.(closed := s.closed + {x}, sweeps := s.sweeps[p := Closing(s.sweeps[p].found - {x})])
    case Removes(x) => s' == s.(table := s.table - {x}, closing := s.closing + (s.table * {x}))
    case ClosesRemoved(x) => x in s.closing && s' == s.(closing := s.closing - {x}, closed := s.closed + {x})
    case Locks => s' == s.(unlocked := false)
    case Unlocks => s' == s.(unlocked := true)
    case _ => false
  }

  ghost predicate Next(s: State, e: Event, s': State) {
    OpenStep(s, e, s') || SweepStep(s, e, s')
  }

  predicate Holding(o: Open) {
    o.Guarded? || o.Inserting? || o.Refused?
  }

  ghost predicate Sweeping(s: State) {
    s.guard.Some? && s.guard.value in s.sweeps
  }

  ghost predicate OpenFits(s: State, p: Pid) {
    p in s.opens ==>
      var o := s.opens[p];
      && o.began <= s.epoch
      && p !in s.sweeps
      && (Holding(o) <==> s.guard == Some(p))
      && (o.Guarded? || o.Inserting? ==> o.began == s.epoch)
      && (p in s.table ==> o.Opened? && (Sweeping(s) || o.began == s.epoch))
  }

  ghost predicate SweepFits(s: State, p: Pid) {
    && (p in s.table ==> p in s.opens)
    && (p in s.sweeps ==>
          && p !in s.opens
          && (s.sweeps[p].Closing? <==> s.guard != Some(p))
          && (s.sweeps[p].Listed? ==> s.table <= s.sweeps[p].found))
  }

  /** The session is connected, and its open has handed it on. */
  ghost predicate Out(s: State, x: Session) {
    x in s.opens && s.opens[x].Opened?
  }

  /** A sweep that has listed the session still has to close it. */
  ghost predicate ToClose(s: State, x: Session) {
    exists p :: p in s.sweeps && !s.sweeps[p].Bumped? && x in s.sweeps[p].found
  }

  ghost predicate Tracked(s: State, x: Session) {
    Out(s, x) ==> x in s.table || x in s.closed || x in s.closing || ToClose(s, x)
  }

  ghost predicate Inv(s: State) {
    && (s.guard.Some? ==> s.guard.value in s.opens || s.guard.value in s.sweeps)
    && (forall p: Pid :: OpenFits(s, p) && SweepFits(s, p) && Tracked(s, p))
  }

  lemma FitsKept(s: State, e: Event, s': State, p: Pid)
    requires Inv(s) && Next(s, e, s')
    ensures OpenFits(s', p) && SweepFits(s', p)
  {
    assert OpenFits(s, p) && SweepFits(s, p);
    if OpenStep(s, e, s') || (!e.Removes? && !e.ClosesRemoved? && !e.Locks? && !e.Unlocks?) {
      assert OpenFits(s, e.p) && SweepFits(s, e.p);
    }
    if s.guard.Some? {
      assert OpenFits(s, s.guard.value) && SweepFits(s, s.guard.value);
    }
  }

  lemma TrackedKept(s: State, e: Event, s': State, x: Session)
    requires Inv(s) && Next(s, e, s')
    ensures Tracked(s', x)
  {
    assert Tracked(s, x) && SweepFits(s, x) && OpenFits(s, x);
    if e.Empties? {
      assert SweepFits(s, e.p);
    }
    if Out(s', x) {
      if p :| p in s.sweeps && !s.sweeps[p].Bumped? && x in s.sweeps[p].found {
        assert p in s'.sweeps && (e == ClosesOne(p, x) || x in s'.sweeps[p].found);
      }
    }
  }

  lemma InvAlways(r: Run<State, Event>, i: nat)
    requires IsRun(r, Init, Next) && i < |r.states|
    ensures Inv(r.states[i])
  {
    forall s, e, s' | Inv(s) && Next(s, e, s')
      ensures Inv(s')
    {
      forall p: Pid
        ensures OpenFits(s', p) && SweepFits(s', p) && Tracked(s', p)
      {
        FitsKept(s, e, s', p);
        TrackedKept(s, e, s', p);
      }
    }
    Kept(r, Next, Inv, 0, i);
  }

  /** Whenever no invalidation is in the middle of emptying the map, every session
      in it was begun in the current epoch. */
  lemma SessionsAreCurrent(r: Run<State, Event>, i: nat, x: Session)
    requires IsRun(r, Init, Next) && i < |r.states|
    requires x in r.states[i].table && !Sweeping(r.states[i])
    ensures x in r.states[i].opens && r.states[i].opens[x].began == r.states[i].epoch
  {
    InvAlways(r, i);
    assert OpenFits(r.states[i], x) && SweepFits(r.states[i], x);
  }

  /** No session is lost: once nothing is under way, each one ever connected is in
      the map or closed. */
  lemma EverySessionKeptOrClosed(r: Run<State, Event>, x: Session)
    requires IsRun(r, Init, Next)
    requires forall p :: p in r.states[|r.events|].sweeps ==> r.states[|r.events|].sweeps[p] == Closing({})
    requires r.states[|r.events|].closing == {}
    requires Out(r.states[|r.events|], x)
    ensures x in r.states[|r.events|].table || x in r.states[|r.events|].closed
  {
    InvAlways(r, |r.events|);
    assert Tracked(r.states[|r.events|], x);
  }

  /** The vault locked, and an invalidation that began afterwards has emptied the map. */
  ghost predicate Swept(s: State, epoch: nat) {
    && !s.unlocked && s.table == {} && s.epoch >= epoch
    && forall p :: p in s.opens ==> !s.opens[p].Inserting?
  }

  lemma SweptKept(s: State, e: Event, s': State, epoch: nat)
    requires Swept(s, epoch) && Next(s, e, s') && !e.Unlocks?
    ensures Swept(s', epoch)
  {
  }

  /** From the end of a lock until the next unlock the map is empty: `c` locks the
      vault, the invalidation `p` takes the epoch lock after that and empties the
      map at `k`. */
  lemma LockLeavesNoSession(r: Run<State, Event>, p: Pid, c: nat, b: nat, k: nat, d: nat)
    requires IsRun(r, Init, Next) && c < b < k < d < |r.states|
    requires r.events[c].Locks? && r.events[b] == Bumps(p) && r.events[k] == Empties(p)
    requires forall i :: c < i < d ==> !r.events[i].Unlocks?
    ensures r.states[d].table == {}
  {
    var step := (s: State, e: Event, s': State) => Next(s, e, s') && !e.Unlocks?;
    assert Next(r.states[c], r.events[c], r.states[c + 1]) && Next(r.states[k], r.events[k], r.states[k + 1]);
    Kept(r, step, (s: State) => !s.unlocked, c + 1, d);
    var s, epoch := r.states[k], r.states[k].epoch;
    InvAlways(r, k);
    forall q | q in s.opens
      ensures !s.opens[q].Inserting?
    {
      assert OpenFits(s, q) && SweepFits(s, p);
    }
    forall s, e, s' | Swept(s, epoch) && step(s, e, s')
      ensures Swept(s', epoch)
    {
      SweptKept(s, e, s', epoch);
    }
    Kept(r, step, (s: State) => Swept(s, epoch), k + 1, d);
    assert Swept(r.states[d], epoch);
  }

  // ---------- an open that nothing overtakes keeps its session ----------

  lemma {:induction false} EpochMovesAtBumps(r: Run<State, Event>, lo: nat, hi: nat)
    requires IsRun(r, Init, Next) && lo <= hi < |r.states|
    ensures r.states[lo].epoch <= r.states[hi].epoch
    ensures r.states[lo].epoch == r.states[hi].epoch <==> forall i :: lo <= i < hi ==> !r.events[i].Bumps?
    decreases hi - lo
  {
    if lo < hi {
      EpochMovesAtBumps(r, lo, hi - 1);
      assert Next(r.states[hi - 1], r.events[hi - 1], r.states[hi]);
    }
  }

  ghost predicate Begun(s: State, p: Pid, began: nat) {
    p in s.opens && s.opens[p].began == began
  }

  lemma BegunKept(s: State, e: Event, s': State, p: Pid, began: nat)
    requires Next(s, e, s') && Begun(s, p, began)
    ensures Begun(s', p, began)
  {
  }

  /** Over every run: an open that holds the epoch lock goes on to ask for the vault if and
      only if nothing was invalidated since it began; else it closes its session. */
  lemma OpenGoesOnIff(r: Run<State, Event>, c: nat, d: nat, p: Pid)
    requires IsRun(r, Init, Next) && c < d < |r.events|
    requires r.events[c] == OpenBegins(p) && r.events[d] == Compares(p)
    ensures p in r.states[d + 1].opens && (r.states[d + 1].opens[p].Guarded? || r.states[d + 1].opens[p].Refused?)
    ensures r.states[d + 1].opens[p].Guarded? <==> forall i :: c < i < d ==> !r.events[i].Bumps?
  {
    var began := r.states[c].epoch;
    assert Next(r.states[c], r.events[c], r.states[c + 1]) && Next(r.states[d], r.events[d], r.states[d + 1]);
    forall s, e, s' | Begun(s, p, began) && Next(s, e, s')
      ensures Begun(s', p, began)
    {
      BegunKept(s, e, s', p, began);
    }
    Kept(r, Next, (s: State) => Begun(s, p, began), c + 1, d);
    assert Begun(r.states[d], p, began);
    EpochMovesAtBumps(r, c, d);
  }

  /** Under the lock and with the vault open, the session gets into the map. */
  lemma GuardedOpenInserts(s: State, p: Pid) returns (r: Run<State, Event>)
    requires p in s.opens && s.opens[p].Guarded? && s.unlocked
    ensures IsRun(r, Anywhere, Next) && r.states[0] == s && r.events == [AsksVault(p), Inserts(p)]
    ensures r.states[2].table == s.table + {p} && r.states[2].closed == s.closed && r.states[2].guard.None?
  {
    var s1 := Move(s, p, Inserting(s.opens[p].began));
    var s2 := Move(s1, p, Opened(s.opens[p].began)).(guard := None, table := s.table + {p});
    assert OpenStep(s, AsksVault(p), s1) && OpenStep(s1, Inserts(p), s2);
    r := Run([s, s1, s2], [AsksVault(p), Inserts(p)]);
  }

  /** With the vault locked it is closed instead. */
  lemma LockedOpenCloses(s: State, p: Pid) returns (r: Run<State, Event>)
    requires p in s.opens && s.opens[p].Guarded? && !s.unlocked
    ensures IsRun(r, Anywhere, Next) && r.states[0] == s && r.events == [AsksVault(p), Closes(p)]
    ensures r.states[2].table == s.table && r.states[2].closed == s.closed + {p} && r.states[2].guard.None?
  {
    var s1 := Move(s, p, Refused(s.opens[p].began));
    var s2 := Move(s1, p, Opened(s.opens[p].began)).(guard := None, closed := s.closed + {p});
    assert OpenStep(s, AsksVault(p), s1) && OpenStep(s1, Closes(p), s2);
    r := Run([s, s1, s2], [AsksVault(p), Closes(p)]);
  }

  // ---------- a session in the map is open ----------

  /** The session is in the map, and nobody has closed it or is about to. */
  ghost predicate Usable(s: State, x: Session) {
    && (x in s.table ==> x !in s.closed && x !in s.closing && forall p :: ToCloseBy(s, p, x) ==> s.sweeps[p].Listed?)
    && (x in s.opens && !s.opens[x].Opened? ==> x !in s.closed && x !in s.closing && !ToClose(s, x) && x !in s.table)
    && (x !in s.opens ==> x !in s.closed && x !in s.closing && !ToClose(s, x) && x !in s.table)
  }

  ghost predicate ToCloseBy(s: State, p: Pid, x: Session) {
    p in s.sweeps && !s.sweeps[p].Bumped? && x in s.sweeps[p].found
  }

  lemma UsableOnOpen(s: State, e: Event, s': State, x: Session)
    requires Inv(s) && OpenStep(s, e, s') && Usable(s, x)
    ensures Usable(s', x)
  {
    assert s'.sweeps == s.sweeps && s'.closing == s.closing;
    assert OpenFits(s, x) && OpenFits(s, e.p) && SweepFits(s, e.p);
    assert forall p :: ToCloseBy(s', p, x) <==> ToCloseBy(s, p, x);
    assert ToClose(s', x) <==> ToClose(s, x);
    assert !ToClose(s, x) ==> forall p :: !ToCloseBy(s, p, x);
  }

  lemma UsableOnSweep(s: State, e: Event, s': State, x: Session)
    requires Inv(s) && SweepStep(s, e, s') && Usable(s, x)
    ensures Usable(s', x)
  {
    assert s'.opens == s.opens && SweepFits(s, x);
    forall p | ToCloseBy(s', p, x)
      ensures ToCloseBy(s, p, x) || (e == Lists(p) && x in s.table)
    {
    }
  }

  lemma UsableAlways(r: Run<State, Event>, i: nat, x: Session)
    requires IsRun(r, Init, Next) && i < |r.states|
    ensures Usable(r.states[i], x)
  {
    forall s, e, s' | Inv(s) && Usable(s, x) && Next(s, e, s')
      ensures Inv(s') && Usable(s', x)
    {
      forall p: Pid
        ensures OpenFits(s', p) && SweepFits(s', p) && Tracked(s', p)
      {
        FitsKept(s, e, s', p);
        TrackedKept(s, e, s', p);
      }
      if OpenStep(s, e, s') {
        UsableOnOpen(s, e, s', x);
      } else {
        UsableOnSweep(s, e, s', x);
      }
    }
    Kept(r, Next, (s: State) => Inv(s) && Usable(s, x), 0, i);
  }

  /** Over every run, a session in the map has not been closed. */
  lemma SessionInMapIsOpen(r: Run<State, Event>, i: nat, x: Session)
    requires IsRun(r, Init, Next) && i < |r.states| && x in r.states[i].table
    ensures x !in r.states[i].closed
  {
    UsableAlways(r, i, x);
  }

  /** A session leaves the map only by its own close or by an invalidation, and a session is
      closed only once its own open refused it, its own close took it out, or an
      invalidation did. */
  lemma SessionGoesOnlyBy(s: State, e: Event, s': State, x: Session)
    requires Next(s, e, s')
    ensures x in s.table && x !in s'.table ==> e == Removes(x) || e.Empties?
    ensures x in s'.closed && x !in s.closed ==>
              || (e == Closes(x) && x in s.opens && s.opens[x].Refused?)
              || (e == ClosesRemoved(x) && x in s.closing)
              || (e.ClosesOne? && e.x == x && ToClose(s, x))
  {
  }

  /** Closing a session takes it out of the map and closes it, and no other. */
  lemma CloseTakesOut(s: State, x: Session) returns (r: Run<State, Event>)
    requires x in s.table
    ensures IsRun(r, Anywhere, Next) && r.states[0] == s && r.events == [Removes(x), ClosesRemoved(x)]
    ensures r.states[2].table == s.table - {x} && r.states[2].closed == s.closed + {x}
  {
    var s1 := s.(table := s.table - {x}, closing := s.closing + {x});
    var s2 := s1.(closing := s1.closing - {x}, closed := s.closed + {x});
    assert s.table * {x} == {x};
    assert SweepStep(s, Removes(x), s1) && SweepStep(s1, ClosesRemoved(x), s2);
    r := Run([s, s1, s2], [Removes(x), ClosesRemoved(x)]);
  }

  /** An invalidation that nothing disturbs takes every session out of the map, to be closed. */
  lemma InvalidationSweeps(s: State, p: Pid) returns (r: Run<State, Event>)
    requires p !in s.opens && p !in s.sweeps && s.guard.None?
    ensures IsRun(r, Anywhere, Next) && r.states[0] == s && r.events == [Bumps(p), Lists(p), Empties(p)]
    ensures r.states[3] == s.(epoch := s.epoch + 1, table := {}, sweeps := s.sweeps[p := Closing(s.table)])
  {
    var s1 := s.(guard := Some(p), epoch := s.epoch + 1, sweeps := s.sweeps[p := Bumped]);
    var s2 := s1.(sweeps := s.sweeps[p := Listed(s.table)]);
    var s3 := s.(epoch := s.epoch + 1, table := {}, sweeps := s.sweeps[p := Closing(s.table)]);
    assert SweepStep(s, Bumps(p), s1) && SweepStep(s1, Lists(p), s2) && SweepStep(s2, Empties(p), s3);
    r := Run([s, s1, s2, s3], [Bumps(p), Lists(p), Empties(p)]);
  }
}
