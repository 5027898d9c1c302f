/** Resetting the instance while unlocks run beside it
    (client/src-tauri/src/commands.rs, `reset_instance`, with the unlock gate of
    rust-core/crates/ffi/src/lib.rs).

    An unlock reads the keyset record and opens the database a key derivation
    later, creating the file if it is missing; it holds the unlock gate from
    start to finish. A reset locks the core without the gate, then deletes the
    two files inside it. */
module InstanceReset {
  import opened Wrappers
  import opened Runs

  type Pid = nat

  datatype Pc =
    // an unlock that read the lock epoch `began`
    | Queueing(began: nat)  // the gate is taken next
    | Reading(began: nat)   // in the gate: the keyset record is read
    | Checking(began: nat)  // in the gate: credentials, epoch, already open
    | Opening(began: nat)   // in the gate: the database is opened, or created
    | Installing(began: nat) // in the gate: rollback floor, keyset rewrite, epoch again, session
    // a reset
    | Asking                // is the vault open
    | Locking               // the core is locked
    | Entering              // the gate is taken next
    | AskingAgain           // in the gate: is the vault open
    | DeletingDb            // in the gate
    | DeletingKeyset        // in the gate
    | Unlocked              // an unlock that is over
    | Reset                 // a reset that is over

  datatype State = State(open: bool, epoch: nat, gate: Option<Pid>, db: bool, keyset: bool, threads: map<Pid, Pc>)

  datatype Event =
    | UnlockBegins(p: Pid)
    | ResetBegins(p: Pid)
    | EntersGate(p: Pid)
    | ReadsKeyset(p: Pid)
    | Checks(p: Pid, valid: bool)
    | OpensDb(p: Pid)
    | Installs(p: Pid)
    | Fails(p: Pid)
    | Asks(p: Pid)
    | LocksCore(p: Pid)
    | AsksAgain(p: Pid)
    | DeletesDb(p: Pid)
    | DeletesKeyset(p: Pid)

  /** Any disk, a half instance included; only a vault that is open has both files. */
  ghost predicate Init(s: State) {
    && s.gate.None? && s.threads == map[]
    && (s.open ==> s.db && s.keyset)
  }

  predicate InGate(pc: Pc) {
    || pc.Reading? || pc.Checking? || pc.Opening? || pc.Installing?
    || pc.AskingAgain? || pc.DeletingDb? || pc.DeletingKeyset?
  }

  function Move(s: State, p: Pid, pc: Pc): State {
    s.(threads := s.threads[p := pc])
  }

  /** Done, and out of the gate. */
  function Leave(s: State, p: Pid, pc: Pc): State {
    s.(threads := s.threads[p := pc], gate := None)
  }

  ghost predicate Next(s: State, e: Event, s': State) {
    match e
    case UnlockBegins(p) => p !in s.threads && s' == Move(s, p, Queueing(s.epoch))
    case ResetBegins(p) => p !in s.threads && s' == Move(s, p, Asking)
    case EntersGate(p) =>
      && p in s.threads && (s.threads[p].Queueing? || s.threads[p].Entering?) && s.gate.None?
      && s' == Move(s, p, if s.threads[p].Entering? then AskingAgain else Reading(s.threads[p].began)).(gate := Some(p))
    case ReadsKeyset(p) =>
      && p in s.threads && s.threads[p].Reading?
      && s' == if s.keyset then Move(s, p, Checking(s.threads[p].began)) else Leave(s, p, Unlocked)
    case Checks(p, valid) =>
      && p in s.threads && s.threads[p].Checking?
      && s' == if valid && s.epoch == s.threads[p].began && !s.open
               then Move(s, p, Opening(s.threads[p].began)) else Leave(s, p, Unlocked)
    case OpensDb(p) =>
      p in s.threads && s.threads[p].Opening? && s' == Move(s, p, Installing(s.threads[p].began)).(db := true)
    case Installs(p) =>
      && p in s.threads && s.threads[p].Installing?
      && s' == Leave(s, p, Unlocked).(open := s.open || s.epoch == s.threads[p].began)
    case Fails(p) =>
      p in s.threads && (s.threads[p].Opening? || s.threads[p].Installing?) && s' == Leave(s, p, Unlocked)
    case Asks(p) =>
      p in s.threads && s.threads[p].Asking? && s' == Move(s, p, if s.open then Reset else Locking)
    case LocksCore(p) =>
      p in s.threads && s.threads[p].Locking? && s' == Move(s, p, Entering).(open := false, epoch := s.epoch + 1)
    case AsksAgain(p) =>
      p in s.threads && s.threads[p].AskingAgain? && s' == if s.open then Leave(s, p, Reset) else Move(s, p, DeletingDb)
    case DeletesDb(p) =>
      p in s.threads && s.threads[p].DeletingDb? && s' == Move(s, p, DeletingKeyset).(db := false)
    case DeletesKeyset(p) =>
      p in s.threads && s.threads[p].DeletingKeyset? && s' == Leave(s, p, Reset).(keyset := false)
  }

  /** A reset that has yet to find the vault open or to delete the files. */
  predicate Pending(pc: Pc) {
    pc.Locking? || pc.Entering? || pc.AskingAgain? || pc.DeletingDb? || pc.DeletingKeyset?
  }

  ghost predicate ThreadFits(s: State, p: Pid) {
    p in s.threads ==>
      var pc := s.threads[p];
      && (InGate(pc) <==> s.gate == Some(p))
      && (pc.Checking? || pc.Opening? || pc.Installing? ==> s.keyset)
      && (pc.Installing? ==> s.db)
      && (pc.DeletingDb? || pc.DeletingKeyset? ==> !s.open)
      && (pc.DeletingKeyset? ==> !s.db)
  }

  /** An open vault has both files; and once any reset is over, a locked vault with a
      file left is one some other reset is still about to deal with. */
  ghost predicate Inv(s: State) {
    && (s.gate.Some? ==> s.gate.value in s.threads && InGate(s.threads[s.gate.value]))
    && (forall p: Pid :: ThreadFits(s, p))
    && (s.open ==> s.db && s.keyset)
    && ((exists p :: p in s.threads && s.threads[p].Reset?) ==>
          s.open || (!s.db && !s.keyset) || exists q :: q in s.threads && Pending(s.threads[q]))
  }

  lemma ThreadFitsKept(s: State, e: Event, s': State, p: Pid)
    requires Inv(s) && Next(s, e, s')
    ensures ThreadFits(s', p)
  {
    assert ThreadFits(s, p) && ThreadFits(s, e.p);
    if s.gate.Some? {
      assert ThreadFits(s, s.gate.value);
    }
  }

  lemma InvKept(s: State, e: Event, s': State)
    requires Inv(s) && Next(s, e, s')
    ensures Inv(s')
  {
    forall p: Pid
      ensures ThreadFits(s', p)
    {
      ThreadFitsKept(s, e, s', p);
    }
    assert ThreadFits(s, e.p);
    if s.gate.Some? {
      assert ThreadFits(s, s.gate.value);
    }
    if exists p :: p in s'.threads && s'.threads[p].Reset? {
      if p :| p in s.threads && s.threads[p].Reset? {
        if q :| q in s.threads && Pending(s.threads[q]) && !s.open && (s.db || s.keyset) {
          assert q != e.p ==> Pending(s'.threads[q]);
          assert Pending(s'.threads[e.p]) || s'.open || (!s'.db && !s'.keyset) || q != e.p;
        } else if !s'.open {
          assert s'.db || s'.keyset ==> Pending(s'.threads[e.p]);
        }
      }
    }
  }

  /** Whatever the disk held and whatever unlocks and resets ran, once they are all over
      and at least one was a reset: the vault is locked with no file left, or open with both. */
  lemma ResetLeavesNoHalfInstance(r: Run<State, Event>)
    requires IsRun(r, Init, Next)
    requires forall p :: p in r.states[|r.events|].threads ==>
      r.states[|r.events|].threads[p].Unlocked? || r.states[|r.events|].threads[p].Reset?
    requires exists p :: p in r.states[|r.events|].threads && r.states[|r.events|].threads[p].Reset?
    ensures var s := r.states[|r.events|];
            if s.open then s.db && s.keyset else !s.db && !s.keyset
  {
    InvAlways(r, |r.events|);
    var s := r.states[|r.events|];
    assert Inv(s) && (s.gate.Some? ==> ThreadFits(s, s.gate.value));
  }

  // ---------- what a reset may delete, and when ----------

  ghost predicate At(s: State, p: Pid, pc: Pc) {
    p in s.threads && s.threads[p] == pc
  }

  lemma DoneStaysDone(s: State, e: Event, s': State, p: Pid)
    requires Next(s, e, s') && At(s, p, Reset)
    ensures At(s', p, Reset) && e != LocksCore(p) && e != DeletesDb(p) && e != DeletesKeyset(p)
  {
  }

  /** A reset that finds the vault open locks nothing and deletes nothing. */
  lemma ResetSparesOpenVault(r: Run<State, Event>, a: nat, d: nat, p: Pid)
    requires IsRun(r, Init, Next) && a < d < |r.events| && r.events[a] == Asks(p) && r.states[a].open
    ensures r.events[d] != LocksCore(p) && r.events[d] != DeletesDb(p) && r.events[d] != DeletesKeyset(p)
  {
    assert Next(r.states[a], r.events[a], r.states[a + 1]) && Next(r.states[d], r.events[d], r.states[d + 1]);
    forall s, e, s' | At(s, p, Reset) && Next(s, e, s')
      ensures At(s', p, Reset)
    {
      DoneStaysDone(s, e, s', p);
    }
    Kept(r, Next, (s: State) => At(s, p, Reset), a + 1, d);
    DoneStaysDone(r.states[d], r.events[d], r.states[d + 1], p);
  }

  /** A reset past its first question, and past its second. */
  predicate AskedOnce(pc: Pc) {
    pc.Locking? || pc.Entering? || pc.AskingAgain? || AskedTwice(pc)
  }

  predicate AskedTwice(pc: Pc) {
    pc.DeletingDb? || pc.DeletingKeyset?
  }

  ghost predicate FoundLocked(r: Run<State, Event>, i: nat, e: Event)
    requires r.Shaped()
  {
    i < |r.events| && r.events[i] == e && !r.states[i].open
  }

  lemma PastQuestions(s: State, e: Event, s': State, p: Pid)
    requires Next(s, e, s') && p in s'.threads
    ensures AskedOnce(s'.threads[p]) ==> (p in s.threads && AskedOnce(s.threads[p])) || (e == Asks(p) && !s.open)
    ensures AskedTwice(s'.threads[p]) ==> (p in s.threads && AskedTwice(s.threads[p])) || (e == AsksAgain(p) && !s.open)
  {
  }

  lemma {:induction false} AskedOnceFoundLocked(r: Run<State, Event>, n: nat, p: Pid)
    requires IsRun(r, Init, Next) && n < |r.states| && p in r.states[n].threads && AskedOnce(r.states[n].threads[p])
    ensures exists a: nat :: a < n && FoundLocked(r, a, Asks(p))
  {
    if n > 0 {
      assert Next(r.states[n - 1], r.events[n - 1], r.states[n]);
      PastQuestions(r.states[n - 1], r.events[n - 1], r.states[n], p);
      if p in r.states[n - 1].threads && AskedOnce(r.states[n - 1].threads[p]) {
        AskedOnceFoundLocked(r, n - 1, p);
      } else {
        assert FoundLocked(r, n - 1, Asks(p));
      }
    }
  }

  lemma {:induction false} AskedTwiceFoundLocked(r: Run<State, Event>, n: nat, p: Pid)
    requires IsRun(r, Init, Next) && n < |r.states| && p in r.states[n].threads && AskedTwice(r.states[n].threads[p])
    ensures exists b: nat :: b < n && FoundLocked(r, b, AsksAgain(p))
  {
    if n > 0 {
      assert Next(r.states[n - 1], r.events[n - 1], r.states[n]);
      PastQuestions(r.states[n - 1], r.events[n - 1], r.states[n], p);
      if p in r.states[n - 1].threads && AskedTwice(r.states[n - 1].threads[p]) {
        AskedTwiceFoundLocked(r, n - 1, p);
      } else {
        assert FoundLocked(r, n - 1, AsksAgain(p));
      }
    }
  }

  /** A file that goes is deleted by a reset that found the vault locked both times it asked,
      and the vault is locked as it goes. */
  lemma FilesGoOnlyWhenLocked(r: Run<State, Event>, d: nat)
    requires IsRun(r, Init, Next) && d < |r.events|
    requires (r.states[d].db && !r.states[d + 1].db) || (r.states[d].keyset && !r.states[d + 1].keyset)
    ensures r.events[d].DeletesDb? || r.events[d].DeletesKeyset?
    ensures exists a: nat :: a < d && FoundLocked(r, a, Asks(r.events[d].p))
    ensures exists b: nat :: b < d && FoundLocked(r, b, AsksAgain(r.events[d].p))
    ensures !r.states[d].open
  {
    assert Next(r.states[d], r.events[d], r.states[d + 1]);
    var p := r.events[d].p;
    AskedOnceFoundLocked(r, d, p);
    AskedTwiceFoundLocked(r, d, p);
    InvAlways(r, d);
    assert ThreadFits(r.states[d], p);
  }

  lemma InvAlways(r: Run<State, Event>, i: nat)
    requires IsRun(r, Init, Next) && i < |r.states|
    ensures Inv(r.states[i])
  {
    forall s, e, s' | Inv(s) && Next(s, e, s')
      ensures Inv(s')
    {
      InvKept(s, e, s');
    }
    Kept(r, Next, Inv, 0, i);
  }

  // ---------- undisturbed, each does its work ----------

  /** A reset of a locked vault, undisturbed, locks the core and gets into the gate... */
  lemma ResetReachesGate(s: State, p: Pid) returns (r: Run<State, Event>)
    requires At(s, p, Asking) && !s.open && s.gate.None?
    ensures IsRun(r, Anywhere, Next) && r.states[0] == s && r.events == [Asks(p), LocksCore(p), EntersGate(p)]
    ensures r.states[3] == s.(epoch := s.epoch + 1, gate := Some(p), threads := s.threads[p := AskingAgain])
  {
    var s1 := Move(s, p, Locking);
    var s2 := Move(s1, p, Entering).(epoch := s.epoch + 1);
    var s3 := Move(s2, p, AskingAgain).(gate := Some(p));
    assert Next(s, Asks(p), s1) && Next(s1, LocksCore(p), s2) && Next(s2, EntersGate(p), s3);
    r := Run([s, s1, s2, s3], [Asks(p), LocksCore(p), EntersGate(p)]);
  }

  /** ... and there, the vault still locked, deletes both files. */
  lemma ResetDeletesBoth(s: State, p: Pid) returns (r: Run<State, Event>)
    requires At(s, p, AskingAgain) && !s.open
    ensures IsRun(r, Anywhere, Next) && r.states[0] == s && r.events == [AsksAgain(p), DeletesDb(p), DeletesKeyset(p)]
    ensures r.states[3] == s.(db := false, keyset := false, gate := None, threads := s.threads[p := Reset])
  {
    var s1 := Move(s, p, DeletingDb);
    var s2 := Move(s1, p, DeletingKeyset).(db := false);
    var s3 := Leave(s2, p, Reset).(keyset := false);
    assert Next(s, AsksAgain(p), s1) && Next(s1, DeletesDb(p), s2) && Next(s2, DeletesKeyset(p), s3);
    r := Run([s, s1, s2, s3], [AsksAgain(p), DeletesDb(p), DeletesKeyset(p)]);
  }

  /** An unlock that finds a keyset, undisturbed since it read the epoch, opens the vault and
      has a database, created if it was missing. */
  lemma UnlockOpens(s: State, p: Pid) returns (r: Run<State, Event>)
    requires At(s, p, Queueing(s.epoch)) && !s.open && s.keyset && s.gate.None?
    ensures IsRun(r, Anywhere, Next) && r.states[0] == s
    ensures r.events == [EntersGate(p), ReadsKeyset(p), Checks(p, true), OpensDb(p), Installs(p)]
    ensures var t := r.states[5]; t.open && t.db && t.keyset && t.gate.None?
  {
    var s1 := Move(s, p, Reading(s.epoch)).(gate := Some(p));
    var s2 := Move(s1, p, Checking(s.epoch));
    var s3 := Move(s2, p, Opening(s.epoch));
    var s4 := Move(s3, p, Installing(s.epoch)).(db := true);
    var s5 := Leave(s4, p, Unlocked).(open := true);
    assert Next(s, EntersGate(p), s1) && Next(s1, ReadsKeyset(p), s2) && Next(s2, Checks(p, true), s3);
    assert Next(s3, OpensDb(p), s4) && Next(s4, Installs(p), s5);
    r := Run([s, s1, s2, s3, s4, s5], [EntersGate(p), ReadsKeyset(p), Checks(p, true), OpensDb(p), Installs(p)]);
  }

  /** An unlock that a reset's lock overtook opens nothing. */
  lemma OvertakenUnlockOpensNothing(s: State, e: Event, s': State)
    requires Next(s, e, s') && !s.open && s'.open
    ensures e.Installs? && At(s, e.p, Installing(s.epoch))
  {
  }

  // ---------- what opens the vault, and what creates a database ----------

  ghost predicate CheckedAt(r: Run<State, Event>, i: nat, p: Pid)
    requires r.Shaped()
  {
    && i < |r.events| && r.events[i] == Checks(p, true) && At(r.states[i], p, Checking(r.states[i].epoch))
    && !r.states[i].open && r.states[i].keyset
  }

  predicate Accepted(pc: Pc) { pc.Opening? || pc.Installing? }

  lemma AcceptedBy(s: State, e: Event, s': State, p: Pid)
    requires Next(s, e, s') && p in s'.threads && Accepted(s'.threads[p])
    ensures || (p in s.threads && Accepted(s.threads[p]))
            || (e == Checks(p, true) && At(s, p, Checking(s.epoch)) && !s.open)
  {
  }

  /** An unlock creates a database or opens the vault only after its credentials were
      accepted, with a keyset there, the vault locked and no lock since it read the epoch. */
  lemma {:induction false} AcceptedOnlyChecked(r: Run<State, Event>, n: nat, p: Pid)
    requires IsRun(r, Init, Next) && n < |r.states| && p in r.states[n].threads && Accepted(r.states[n].threads[p])
    ensures exists i: nat :: i < n && CheckedAt(r, i, p)
  {
    if n > 0 {
      var s, e, s' := r.states[n - 1], r.events[n - 1], r.states[n];
      assert Next(s, e, s');
      AcceptedBy(s, e, s', p);
      if p in s.threads && Accepted(s.threads[p]) {
        AcceptedOnlyChecked(r, n - 1, p);
      } else {
        InvAlways(r, n - 1);
        assert ThreadFits(s, p);
        assert CheckedAt(r, n - 1, p);
      }
    }
  }

  /** The unlock read the epoch before it became `epoch`, or is over. */
  ghost predicate Outrun(s: State, p: Pid, epoch: nat) {
    && s.epoch >= epoch && p in s.threads
    && match s.threads[p] {
         case Queueing(began) => began < epoch
         case Reading(began) => began < epoch
         case Checking(began) => began < epoch
         case Opening(began) => began < epoch
         case Installing(began) => began < epoch
         case Unlocked => true
         case _ => false
       }
  }

  lemma OutrunKept(s: State, e: Event, s': State, p: Pid, epoch: nat)
    requires Next(s, e, s') && Outrun(s, p, epoch)
    ensures Outrun(s', p, epoch) && (e == Installs(p) ==> s'.open == s.open)
  {
    if e.p != p {
      assert p in s'.threads && s'.threads[p] == s.threads[p];
    }
  }

  ghost predicate Unlocking(s: State, p: Pid) {
    && p in s.threads
    && match s.threads[p] {
         case Queueing(began) => began <= s.epoch
         case Reading(began) => began <= s.epoch
         case Checking(began) => began <= s.epoch
         case Opening(began) => began <= s.epoch
         case Installing(began) => began <= s.epoch
         case _ => false
       }
  }

  /** A reset's lock leaves the vault locked, and an unlock under way then does not open it. */
  lemma ResetLockWins(r: Run<State, Event>, c: nat, d: nat, p: Pid)
    requires IsRun(r, Init, Next) && c < d < |r.events| && r.events[c].LocksCore?
    requires Unlocking(r.states[c], p) && r.events[d] == Installs(p)
    ensures !r.states[c + 1].open && r.states[d + 1].open == r.states[d].open
  {
    var epoch := r.states[c].epoch + 1;
    assert Next(r.states[c], r.events[c], r.states[c + 1]) && Next(r.states[d], r.events[d], r.states[d + 1]);
    forall s, e, s' | Outrun(s, p, epoch) && Next(s, e, s')
      ensures Outrun(s', p, epoch)
    {
      OutrunKept(s, e, s', p, epoch);
    }
    Kept(r, Next, (s: State) => Outrun(s, p, epoch), c + 1, d);
    OutrunKept(r.states[d], r.events[d], r.states[d + 1], p, epoch);
  }
}
