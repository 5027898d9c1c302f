/** Which unlock may still open the vault (client/src-tauri/src/biometric.rs,
    with the lock epoch of rust-core/crates/ffi/src/lib.rs).

    A biometric prompt can outlive the moment it was asked for. Attempts are
    numbered, and ending one makes its number over for good; on top of that the
    core counts its locks, and an unlock that read the count before a lock
    installs nothing after it. The two are read at different moments by threads
    that hold nothing in between, so every mutex section and core call is a step. */
module UnlockAttempts {
  import opened Wrappers
  import opened Runs

  type Pid = nat

  /** The attempt whose answer counts, and the dismisser of its prompt while one
      is up. A dismisser is named by the job whose prompt it takes down. */
  datatype Current = Current(id: nat, dismiss: Option<Pid>)

  function Ended(c: Current): Current {
    Current(c.id + 1, None)
  }

  function Cancelled(c: Current, id: nat): Current {
    if c.id == id then Ended(c) else c
  }

  function Shown(c: Current, id: nat, dismiss: Pid): Current {
    if c.id == id then Current(id, Some(dismiss)) else c
  }

  function Answered(c: Current, id: nat): Current {
    if c.id == id then Current(id, None) else c
  }

  /** One object per app; each method is one mutex section. Dismissers handed
      back are run by the caller, after the section. */
  class Attempts {
    var id: nat
    var dismiss: Option<Pid>

    function Value(): Current
      reads this
    {
      Current(id, dismiss)
    }

    constructor ()
      ensures Value() == Current(0, None)
    {
      id, dismiss := 0, None;
    }

    method End() returns (next: nat, taken: Option<Pid>)
      modifies this
      ensures Value() == Ended(old(Value()))
      ensures next == id > old(id) && taken == old(dismiss)
    {
      id := id + 1;
      next, taken := id, dismiss;
      dismiss := None;
    }

    /** Ends attempt `number` and no other. */
    method Cancel(number: nat) returns (taken: Option<Pid>)
      modifies this
      ensures Value() == Cancelled(old(Value()), number)
      ensures taken == if old(id) == number then old(dismiss) else None
      ensures id != number
    {
      if id != number {
        return None;
      }
      id := id + 1;
      taken := dismiss;
      dismiss := None;
    }

    method IsCurrent(number: nat) returns (current: bool)
      ensures current <==> Value().id == number
    {
      current := id == number;
    }

    /** An attempt that is over gets its dismisser straight back. */
    method Showing(number: nat, d: Pid) returns (back: Option<Pid>)
      modifies this
      ensures Value() == Shown(old(Value()), number, d)
      ensures back == if old(id) == number then None else Some(d)
    {
      if id != number {
        return Some(d);
      }
      dismiss := Some(d);
      back := None;
    }

    method Answer(number: nat)
      modifies this
      ensures Value() == Answered(old(Value()), number)
    {
      if id == number {
        dismiss := None;
      }
    }
  }

  // ---------- the core ----------

  /** `session` names the thread whose unlock opened the vault. */
  datatype Core = Core(epoch: nat, session: Option<Pid>) {
    predicate Unlocked() {
      session.Some?
    }

    function Lock(): Core {
      Core(epoch + 1, None)
    }

    /** The last step of `unlock_unless_locked_since`: the epoch is compared and
        the session installed under one lock; an open session is kept. */
    function Install(p: Pid, began: nat): Core {
      if began == epoch && session.None? then Core(epoch, Some(p)) else this
    }
  }

  // ---------- threads ----------

  datatype Kind = Supersede | Cancel | Lock | Typed | Biometric

  datatype Pc =
    | Dismissing   // a taken dismisser, if any, is run next
    | Closing      // lock: the core is locked next
    | Reading      // the lock epoch is read next
    | Deciding     // biometric: "is the attempt still current" before the prompt
    | Prompting    // biometric: the dismisser is handed over next
    | Waiting      // biometric: the prompt is up
    | Rechecking   // biometric: the prompt answered; "still current" is asked next
    | Asking       // biometric: "is the vault open already" is asked next
    | Deriving     // in the core: keys derived, first epoch check next
    | Installing   // in the core: second epoch check and install next
    | Finished

  /** `shown` and `late` are set once: whether the job handed a dismisser over, and
      whether its attempt was over when its prompt answered. */
  datatype Thread =
    Thread(kind: Kind, number: nat, pc: Pc, taken: Option<Pid>, began: nat, shown: bool, answered: bool, late: bool)

  function Fresh(kind: Kind, number: nat, pc: Pc, taken: Option<Pid>): Thread {
    Thread(kind, number, pc, taken, 0, false, false, false)
  }

  datatype State = State(current: Current, core: Core, threads: map<Pid, Thread>, dismissed: multiset<Pid>)

  datatype Event =
    | Supersedes(p: Pid)          // biometric_begin, reset
    | Cancels(p: Pid, number: nat)
    | Locks(p: Pid)
    | Types(p: Pid)               // a typed unlock
    | Queues(p: Pid, number: nat) // the job of a numbered attempt
    | Dismisses(p: Pid)
    | LocksCore(p: Pid)
    | ReadsEpoch(p: Pid)
    | Decides(p: Pid)
    | GivesUp(p: Pid)             // no blob, no Secret Key, no store: no prompt
    | Shows(p: Pid)
    | Answers(p: Pid)
    | Rechecks(p: Pid)
    | Asks(p: Pid, released: bool)
    | Checks(p: Pid, valid: bool)
    | Installs(p: Pid)

  ghost predicate Init(s: State) {
    s == State(Current(0, None), Core(s.core.epoch, None), map[], multiset{})
  }

  ghost predicate At(s: State, p: Pid, pc: Pc) {
    p in s.threads && s.threads[p].pc == pc
  }

  function Move(s: State, p: Pid, pc: Pc): State
    requires p in s.threads
  {
    s.(threads := s.threads[p := s.threads[p].(pc := pc)])
  }

  /** A new thread whose first section ends the attempt under way. */
  function Ends(s: State, p: Pid, kind: Kind, pc: Pc): State {
    s.(current := Ended(s.current), threads := s.threads[p := Fresh(kind, s.current.id + 1, pc, s.current.dismiss)])
  }

  function AfterDismissing(t: Thread): Pc {
    match t.kind
    case Typed => Reading
    case Biometric => Waiting
    case _ => Finished
  }

  /** A thread's first section. */
  ghost predicate BeginStep(s: State, e: Event, s': State) {
    match e
    case Supersedes(p) => p !in s.threads && s' == Ends(s, p, Supersede, Dismissing)
    case Types(p) => p !in s.threads && s' == Ends(s, p, Typed, Dismissing)
    case Locks(p) => p !in s.threads && s' == Ends(s, p, Lock, Closing)
    case Cancels(p, number) =>
      && p !in s.threads
      && var taken := if s.current.id == number then s.current.dismiss else None;
      s' == s.(current := Cancelled(s.current, number),
               threads := s.threads[p := Fresh(Cancel, number, Dismissing, taken)])
    case Queues(p, number) =>
      && p !in s.threads && 0 < number <= s.current.id
      && (forall q :: q in s.threads && s.threads[q].kind.Biometric? ==> s.threads[q].number != number)
      && s' == s.(threads := s.threads[p := Fresh(Biometric, number, Reading, None)])
    case _ => false
  }

  ghost predicate PromptStep(s: State, e: Event, s': State) {
    match e
    case Dismisses(p) =>
      && At(s, p, Dismissing)
      && var t := s.threads[p];
      s' == s.(threads := s.threads[p := t.(pc := AfterDismissing(t), taken := None)],
               dismissed := s.dismissed + if t.taken.Some? then multiset{t.taken.value} else multiset{})
    case Decides(p) =>
      At(s, p, Deciding) && s' == Move(s, p, if s.current.id == s.threads[p].number then Prompting else Finished)
    case GivesUp(p) => At(s, p, Prompting) && s' == Move(s, p, Finished)
    case Shows(p) =>
      && At(s, p, Prompting)
      && var t := s.threads[p];
      s' == s.(current := Shown(s.current, t.number, p),
               threads := s.threads[p := if s.current.id == t.number then t.(pc := Waiting, shown := true)
                                    else t.(pc := Dismissing, shown := true, taken := Some(p))])
    case Answers(p) =>
      && At(s, p, Waiting)
      && var t := s.threads[p];
      s' == s.(current := Answered(s.current, t.number),
               threads := s.threads[p := t.(pc := Rechecking, answered := true, late := s.current.id != t.number)])
    case Rechecks(p) =>
      At(s, p, Rechecking) && s' == Move(s, p, if s.current.id == s.threads[p].number then Asking else Finished)
    case Asks(p, released) =>
      At(s, p, Asking) && s' == Move(s, p, if released && !s.core.Unlocked() then Deriving else Finished)
    case _ => false
  }

  /** A step that meets the core. */
  ghost predicate CoreStep(s: State, e: Event, s': State) {
    match e
    case LocksCore(p) => At(s, p, Closing) && s' == Move(s, p, Dismissing).(core := s.core.Lock())
    case ReadsEpoch(p) =>
      && At(s, p, Reading)
      && var t := s.threads[p];
      var pc := if t.kind.Biometric? then Deciding else Deriving;
      s' == s.(threads := s.threads[p := t.(pc := pc, began := s.core.epoch)])
    case Checks(p, valid) =>
      && At(s, p, Deriving)
      && var stands := valid && s.threads[p].began == s.core.epoch && !s.core.Unlocked();
      s' == Move(s, p, if stands then Installing else Finished)
    case Installs(p) =>
      At(s, p, Installing) && s' == Move(s, p, Finished).(core := s.core.Install(p, s.threads[p].began))
    case _ => false
  }

  ghost predicate Next(s: State, e: Event, s': State) {
    BeginStep(s, e, s') || PromptStep(s, e, s') || CoreStep(s, e, s')
  }

  // ---------- a lock wins over every unlock that began before it ----------

  ghost predicate EpochsPast(s: State) {
    forall p :: p in s.threads ==> s.threads[p].began <= s.core.epoch
  }

  lemma EpochsPastKept(s: State, e: Event, s': State)
    requires EpochsPast(s) && Next(s, e, s')
    ensures EpochsPast(s')
  {
    forall q | q in s'.threads
      ensures s'.threads[q].began <= s'.core.epoch
    {
      assert q in s.threads ==> s.threads[q].began <= s.core.epoch;
    }
  }

  /** The thread asked whether its attempt is current after it read the epoch. */
  predicate PastRecheck(pc: Pc) {
    pc == Asking || pc == Deriving || pc == Installing
  }

  /** The state of things once a lock that ended every attempt up to `number` has
      locked the core, at which moment the epoch became `epoch`. */
  ghost predicate Barred(s: State, number: nat, epoch: nat) {
    && s.core.epoch >= epoch
    && s.current.id > number
    && (s.core.Unlocked() ==> s.core.session.value in s.threads)
    && forall j :: j in s.threads && s.threads[j].kind.Biometric? && s.threads[j].number <= number ==>
      s.core.session != Some(j) && (PastRecheck(s.threads[j].pc) ==> s.threads[j].began < epoch)
  }

  lemma BarredKept(s: State, e: Event, s': State, number: nat, epoch: nat)
    requires Barred(s, number, epoch) && Next(s, e, s')
    ensures Barred(s', number, epoch)
  {
    forall j | j in s'.threads && s'.threads[j].kind.Biometric? && s'.threads[j].number <= number
      ensures s'.core.session != Some(j) && (PastRecheck(s'.threads[j].pc) ==> s'.threads[j].began < epoch)
    {
      assert j in s.threads ==> s.threads[j].kind.Biometric? && s.threads[j].number == s'.threads[j].number;
    }
  }

  lemma NumbersOnlyGrow(r: Run<State, Event>, a: nat, b: nat)
    requires IsRun(r, Init, Next) && a <= b < |r.states|
    ensures r.states[a].current.id <= r.states[b].current.id
  {
    Kept(r, Next, (s: State) => r.states[a].current.id <= s.current.id, a, b);
  }

  /** A number that is over never becomes current again. */
  lemma EndedNumberStaysOver(r: Run<State, Event>, a: nat, b: nat)
    requires IsRun(r, Init, Next) && a < b < |r.states|
    requires r.states[a].current.id != r.states[a + 1].current.id
    ensures r.states[a].current.id < r.states[b].current.id
  {
    assert Next(r.states[a], r.events[a], r.states[a + 1]);
    NumbersOnlyGrow(r, a + 1, b);
  }

  /** An attempt whose number was handed out before a lock began is never the one
      that holds the vault open after that lock reached the core, wherever the
      lock's two steps fell among the attempt's own. */
  lemma LockBeatsEarlierAttempt(r: Run<State, Event>, l: Pid, a: nat, c: nat, d: nat, j: Pid)
    requires IsRun(r, Init, Next) && a < c < d < |r.states|
    requires r.events[a] == Locks(l) && r.events[c] == LocksCore(l)
    requires j in r.states[d].threads && r.states[d].threads[j].kind.Biometric?
    requires r.states[d].threads[j].number <= r.states[a].current.id
    ensures r.states[d].core.session != Some(j)
  {
    var number, epoch := r.states[a].current.id, r.states[c + 1].core.epoch;
    assert Next(r.states[a], r.events[a], r.states[a + 1]) && Next(r.states[c], r.events[c], r.states[c + 1]);
    NumbersOnlyGrow(r, a + 1, c + 1);
    EpochsPastAlways(r, c);
    assert Barred(r.states[c + 1], number, epoch);
    forall s, e, s' | Barred(s, number, epoch) && Next(s, e, s')
      ensures Barred(s', number, epoch)
    {
      BarredKept(s, e, s', number, epoch);
    }
    Kept(r, Next, (s: State) => Barred(s, number, epoch), c + 1, d);
    assert Barred(r.states[d], number, epoch);
  }

  lemma EpochsPastAlways(r: Run<State, Event>, c: nat)
    requires IsRun(r, Init, Next) && c < |r.states|
    ensures EpochsPast(r.states[c])
  {
    forall s, e, s' | EpochsPast(s) && Next(s, e, s')
      ensures EpochsPast(s')
    {
      EpochsPastKept(s, e, s');
    }
    Kept(r, Next, EpochsPast, 0, c);
  }

  predicate InCore(pc: Pc) {
    pc.Deriving? || pc.Installing? || pc.Finished?
  }

  /** The unlock has read the lock epoch: a typed one is in the core since, a biometric one
      has its prompt and its questions still before it. */
  predicate HasRead(t: Thread) {
    || (t.kind.Typed? && InCore(t.pc))
    || (t.kind.Biometric? && !t.pc.Reading? && !t.pc.Closing?)
  }

  /** What holds of a thread that had read the epoch before it became `epoch`. */
  ghost predicate Outrun(s: State, p: Pid, epoch: nat) {
    && s.core.epoch >= epoch && s.core.session != Some(p)
    && p in s.threads && s.threads[p].began < epoch && HasRead(s.threads[p])
  }

  lemma OutrunKept(s: State, e: Event, s': State, p: Pid, epoch: nat)
    requires Outrun(s, p, epoch) && Next(s, e, s')
    ensures Outrun(s', p, epoch)
  {
  }

  /** The same for any unlock, typed or biometric: one that had read the epoch when a lock
      reached the core never opens the vault afterwards. */
  lemma LockBeatsEarlierUnlock(r: Run<State, Event>, l: Pid, c: nat, d: nat, p: Pid)
    requires IsRun(r, Init, Next) && c < d < |r.states|
    requires r.events[c] == LocksCore(l)
    requires p in r.states[c].threads && HasRead(r.states[c].threads[p])
    ensures r.states[d].core.session != Some(p)
  {
    var epoch := r.states[c + 1].core.epoch;
    assert Next(r.states[c], r.events[c], r.states[c + 1]);
    EpochsPastAlways(r, c);
    forall s, e, s' | Outrun(s, p, epoch) && Next(s, e, s')
      ensures Outrun(s', p, epoch)
    {
      OutrunKept(s, e, s', p, epoch);
    }
    Kept(r, Next, (s: State) => Outrun(s, p, epoch), c + 1, d);
    assert Outrun(r.states[d], p, epoch);
  }

  // ---------- an unlock that no lock overtakes opens the vault ----------

  /** The epoch tells whether a lock reached the core in between. */
  lemma {:induction false} EpochMovesAtLocks(r: Run<State, Event>, lo: nat, hi: nat)
    requires IsRun(r, Init, Next) && lo <= hi < |r.states|
    ensures r.states[lo].core.epoch <= r.states[hi].core.epoch
    ensures r.states[lo].core.epoch == r.states[hi].core.epoch <==> forall i :: lo <= i < hi ==> !r.events[i].LocksCore?
    decreases hi - lo
  {
    if lo < hi {
      EpochMovesAtLocks(r, lo, hi - 1);
      assert Next(r.states[hi - 1], r.events[hi - 1], r.states[hi]);
    }
  }

  ghost predicate Reader(s: State, p: Pid) {
    At(s, p, Reading) ==> s.threads[p].kind.Typed? || s.threads[p].kind.Biometric?
  }

  lemma ReaderBegins(s: State, e: Event, s': State, p: Pid)
    requires BeginStep(s, e, s') && Reader(s, p)
    ensures Reader(s', p)
  {
  }

  lemma ReaderPrompts(s: State, e: Event, s': State, p: Pid)
    requires PromptStep(s, e, s') && Reader(s, p)
    ensures Reader(s', p)
  {
  }

  lemma ReaderInCore(s: State, e: Event, s': State, p: Pid)
    requires CoreStep(s, e, s') && Reader(s, p)
    ensures Reader(s', p)
  {
  }

  /** The session's owner has nothing left to do. */
  ghost predicate OwnerIsDone(s: State) {
    s.core.session.Some? ==> At(s, s.core.session.value, Finished)
  }

  lemma OwnerStaysDone(s: State, e: Event, s': State)
    requires Next(s, e, s') && OwnerIsDone(s)
    ensures OwnerIsDone(s')
  {
    assert forall q :: At(s, q, Finished) ==> At(s', q, Finished);
  }

  lemma ReadersAlways(r: Run<State, Event>, i: nat, p: Pid)
    requires IsRun(r, Init, Next) && i < |r.states|
    ensures Reader(r.states[i], p) && OwnerIsDone(r.states[i])
  {
    forall s, e, s' | Reader(s, p) && OwnerIsDone(s) && Next(s, e, s')
      ensures Reader(s', p) && OwnerIsDone(s')
    {
      OwnerStaysDone(s, e, s');
      if BeginStep(s, e, s') {
        ReaderBegins(s, e, s', p);
      } else if PromptStep(s, e, s') {
        ReaderPrompts(s, e, s', p);
      } else {
        ReaderInCore(s, e, s', p);
      }
    }
    Kept(r, Next, (s: State) => Reader(s, p) && OwnerIsDone(s), 0, i);
  }

  ghost predicate Began(s: State, p: Pid, began: nat) {
    p in s.threads && HasRead(s.threads[p]) && s.threads[p].began == began
  }

  lemma BeganKept(s: State, e: Event, s': State, p: Pid, began: nat)
    requires Next(s, e, s') && Began(s, p, began)
    ensures Began(s', p, began)
  {
  }

  lemma BeganAtRead(r: Run<State, Event>, c: nat, d: nat, p: Pid)
    requires IsRun(r, Init, Next) && c < d < |r.states| && r.events[c] == ReadsEpoch(p)
    ensures Began(r.states[d], p, r.states[c].core.epoch)
  {
    var began := r.states[c].core.epoch;
    ReadersAlways(r, c, p);
    assert Next(r.states[c], r.events[c], r.states[c + 1]);
    forall s, e, s' | Began(s, p, began) && Next(s, e, s')
      ensures Began(s', p, began)
    {
      BeganKept(s, e, s', p, began);
    }
    Kept(r, Next, (s: State) => Began(s, p, began), c + 1, d);
  }

  /** Over every run: the last step of an unlock leaves the vault open, and open by it, if
      and only if the vault was not open already and no lock reached the core since the
      unlock read the epoch. */
  lemma UnlockOpensIff(r: Run<State, Event>, c: nat, d: nat, p: Pid)
    requires IsRun(r, Init, Next) && c < d < |r.events|
    requires r.events[c] == ReadsEpoch(p) && r.events[d] == Installs(p)
    ensures r.states[d + 1].core.session == Some(p) <==>
            r.states[d].core.session.None? && forall i :: c < i < d ==> !r.events[i].LocksCore?
    ensures r.states[d].core.session.Some? ==> r.states[d + 1].core.session == r.states[d].core.session
  {
    BeganAtRead(r, c, d, p);
    ReadersAlways(r, d, p);
    EpochMovesAtLocks(r, c, d);
    assert Next(r.states[d], r.events[d], r.states[d + 1]);
  }

  // ---------- what an unlock has behind it ----------

  /** A job whose attempt is over before it decides never gets to show a prompt. */
  ghost predicate Promptless(s: State, p: Pid) {
    && p in s.threads && s.threads[p].kind.Biometric? && s.threads[p].number < s.current.id
    && (s.threads[p].pc.Reading? || s.threads[p].pc.Deciding? || s.threads[p].pc.Finished?)
  }

  lemma PromptlessKept(s: State, e: Event, s': State, p: Pid)
    requires Next(s, e, s') && Promptless(s, p)
    ensures Promptless(s', p) && e != Shows(p)
  {
  }

  lemma OverAttemptShowsNothing(r: Run<State, Event>, a: nat, d: nat, p: Pid)
    requires IsRun(r, Init, Next) && a <= d < |r.events| && p in r.states[a].threads
    requires r.states[a].threads[p].kind.Biometric? && r.states[a].threads[p].number < r.states[a].current.id
    requires r.states[a].threads[p].pc.Reading? || r.states[a].threads[p].pc.Deciding?
    ensures r.events[d] != Shows(p)
  {
    forall s, e, s' | Promptless(s, p) && Next(s, e, s')
      ensures Promptless(s', p)
    {
      PromptlessKept(s, e, s', p);
    }
    Kept(r, Next, (s: State) => Promptless(s, p), a, d);
    assert Next(r.states[d], r.events[d], r.states[d + 1]);
    PromptlessKept(r.states[d], r.events[d], r.states[d + 1], p);
  }

  /** The check in the core that the credentials are right, that no lock came since the
      epoch was read, and that the vault is not open already. */
  ghost predicate CheckedAt(r: Run<State, Event>, i: nat, p: Pid)
    requires r.Shaped()
  {
    && i < |r.events| && r.events[i] == Checks(p, true) && p in r.states[i].threads
    && r.states[i].threads[p].began == r.states[i].core.epoch && r.states[i].core.session.None?
  }

  lemma ReachesInstalling(s: State, e: Event, s': State, p: Pid)
    requires Next(s, e, s') && At(s', p, Installing) && !At(s, p, Installing)
    ensures e == Checks(p, true) && p in s.threads && s.threads[p].began == s.core.epoch && s.core.session.None?
  {
  }

  lemma {:induction false} InstallsOnlyChecked(r: Run<State, Event>, n: nat, p: Pid)
    requires IsRun(r, Init, Next) && n < |r.states| && At(r.states[n], p, Installing)
    ensures exists i: nat :: i < n && CheckedAt(r, i, p)
  {
    if n > 0 {
      assert Next(r.states[n - 1], r.events[n - 1], r.states[n]);
      if At(r.states[n - 1], p, Installing) {
        InstallsOnlyChecked(r, n - 1, p);
      } else {
        ReachesInstalling(r.states[n - 1], r.events[n - 1], r.states[n], p);
        assert CheckedAt(r, n - 1, p);
      }
    }
  }

  lemma OpensByInstalling(s: State, e: Event, s': State, p: Pid)
    requires Next(s, e, s') && s'.core.session == Some(p) && s.core.session != Some(p)
    ensures e == Installs(p) && At(s, p, Installing) && s.core.session.None?
  {
  }

  /** Whatever opens the vault had its credentials accepted first. */
  lemma OpensOnlyChecked(r: Run<State, Event>, d: nat, p: Pid)
    requires IsRun(r, Init, Next) && d < |r.events|
    requires r.states[d + 1].core.session == Some(p) && r.states[d].core.session != Some(p)
    ensures r.events[d] == Installs(p) && exists i: nat :: i < d && CheckedAt(r, i, p)
  {
    assert Next(r.states[d], r.events[d], r.states[d + 1]);
    OpensByInstalling(r.states[d], r.events[d], r.states[d + 1], p);
    InstallsOnlyChecked(r, d, p);
  }

  /** The prompt was answered while the attempt was current, the secret came out, and the
      vault was not open. */
  ghost predicate ReleasedAt(r: Run<State, Event>, i: nat, p: Pid)
    requires r.Shaped()
  {
    i < |r.events| && r.events[i] == Asks(p, true) && r.states[i].core.session.None?
  }

  ghost predicate RecheckedAt(r: Run<State, Event>, i: nat, p: Pid)
    requires r.Shaped()
  {
    && i < |r.events| && r.events[i] == Rechecks(p) && p in r.states[i].threads
    && r.states[i].threads[p].number == r.states[i].current.id
  }

  predicate InsideCore(pc: Pc) { pc.Deriving? || pc.Installing? }

  lemma ReachesCore(s: State, e: Event, s': State, p: Pid)
    requires Next(s, e, s') && IsJob(s', p) && InsideCore(s'.threads[p].pc)
    requires !(IsJob(s, p) && InsideCore(s.threads[p].pc))
    ensures e == Asks(p, true) && s.core.session.None? && At(s, p, Asking)
  {
  }

  lemma ReachesAsking(s: State, e: Event, s': State, p: Pid)
    requires Next(s, e, s') && At(s', p, Asking) && !At(s, p, Asking)
    ensures e == Rechecks(p) && p in s.threads && s.threads[p].number == s.current.id
  {
  }

  lemma {:induction false} AskingOnlyRechecked(r: Run<State, Event>, n: nat, p: Pid)
    requires IsRun(r, Init, Next) && n < |r.states| && At(r.states[n], p, Asking)
    ensures exists i: nat :: i < n && RecheckedAt(r, i, p)
  {
    if n > 0 {
      assert Next(r.states[n - 1], r.events[n - 1], r.states[n]);
      if At(r.states[n - 1], p, Asking) {
        AskingOnlyRechecked(r, n - 1, p);
      } else {
        ReachesAsking(r.states[n - 1], r.events[n - 1], r.states[n], p);
        assert RecheckedAt(r, n - 1, p);
      }
    }
  }

  /** A biometric unlock is in the core only after its attempt was found current once its
      prompt had answered, and after that its secret came out with the vault locked. */
  lemma {:induction false} InCoreOnlyReleased(r: Run<State, Event>, n: nat, p: Pid)
    requires IsRun(r, Init, Next) && n < |r.states| && IsJob(r.states[n], p) && InsideCore(r.states[n].threads[p].pc)
    ensures exists i: nat, k: nat :: i < k < n && RecheckedAt(r, i, p) && ReleasedAt(r, k, p)
  {
    if n > 0 {
      assert Next(r.states[n - 1], r.events[n - 1], r.states[n]);
      if IsJob(r.states[n - 1], p) && InsideCore(r.states[n - 1].threads[p].pc) {
        InCoreOnlyReleased(r, n - 1, p);
      } else {
        ReachesCore(r.states[n - 1], r.events[n - 1], r.states[n], p);
        AskingOnlyRechecked(r, n - 1, p);
        assert ReleasedAt(r, n - 1, p);
      }
    }
  }

  /** A lock ends the attempt under way, locks the core, and takes the prompt down. */
  lemma LockRuns(s: State, p: Pid) returns (r: Run<State, Event>)
    requires p !in s.threads
    ensures IsRun(r, Anywhere, Next) && r.states[0] == s && r.events == [Locks(p), LocksCore(p), Dismisses(p)]
    ensures r.states[1].current == Current(s.current.id + 1, None) && r.states[2].core == Core(s.core.epoch + 1, None)
    ensures r.states[3].dismissed == s.dismissed + Dismissed(s.current) && At(r.states[3], p, Finished)
  {
    var t := Fresh(Lock, s.current.id + 1, Closing, s.current.dismiss);
    var s1 := Put(s, p, t).(current := Current(s.current.id + 1, None));
    var s2 := Put(s1, p, t.(pc := Dismissing)).(core := Core(s.core.epoch + 1, None));
    var s3 := Put(s2, p, t.(pc := Finished, taken := None)).(dismissed := s.dismissed + Dismissed(s.current));
    assert BeginStep(s, Locks(p), s1) && CoreStep(s1, LocksCore(p), s2) && PromptStep(s2, Dismisses(p), s3);
    r := Run([s, s1, s2, s3], [Locks(p), LocksCore(p), Dismisses(p)]);
  }

  /** The prompt that is up, if any. */
  function Dismissed(c: Current): multiset<Pid> {
    if c.dismiss.Some? then multiset{c.dismiss.value} else multiset{}
  }

  /** Superseding ends the attempt under way and takes its prompt down. */
  lemma SupersedeRuns(s: State, p: Pid) returns (r: Run<State, Event>)
    requires p !in s.threads
    ensures IsRun(r, Anywhere, Next) && r.states[0] == s && r.events == [Supersedes(p), Dismisses(p)]
    ensures r.states[2].current == Current(s.current.id + 1, None) && r.states[2].core == s.core
    ensures r.states[2].dismissed == s.dismissed + Dismissed(s.current) && At(r.states[2], p, Finished)
  {
    var t := Fresh(Supersede, s.current.id + 1, Dismissing, s.current.dismiss);
    var s1 := Put(s, p, t).(current := Current(s.current.id + 1, None));
    var s2 := Put(s1, p, t.(pc := Finished, taken := None)).(dismissed := s.dismissed + Dismissed(s.current));
    assert BeginStep(s, Supersedes(p), s1) && PromptStep(s1, Dismisses(p), s2);
    r := Run([s, s1, s2], [Supersedes(p), Dismisses(p)]);
  }

  /** Cancelling an attempt that is no longer current ends nothing and takes nothing down. */
  lemma OldCancelChangesNothing(s: State, p: Pid, number: nat) returns (r: Run<State, Event>)
    requires p !in s.threads && number != s.current.id
    ensures IsRun(r, Anywhere, Next) && r.states[0] == s && r.events == [Cancels(p, number), Dismisses(p)]
    ensures r.states[2].current == s.current && r.states[2].core == s.core && r.states[2].dismissed == s.dismissed
  {
    var t := Fresh(Cancel, number, Dismissing, None);
    var s1 := Put(s, p, t);
    var s2 := Put(s1, p, t.(pc := Finished)).(dismissed := s.dismissed + multiset{});
    assert BeginStep(s, Cancels(p, number), s1) && PromptStep(s1, Dismisses(p), s2);
    r := Run([s, s1, s2], [Cancels(p, number), Dismisses(p)]);
  }

  /** The state with thread `p` as given. */
  function Put(s: State, p: Pid, t: Thread): State {
    s.(threads := s.threads[p := t])
  }

  /** An unlock in the core, undisturbed and with the right credentials, opens the vault. */
  lemma UnlockInCoreOpens(s: State, p: Pid) returns (r: Run<State, Event>)
    requires At(s, p, Deriving) && s.threads[p].began == s.core.epoch && s.core.session.None?
    ensures IsRun(r, Anywhere, Next) && r.states[0] == s && r.events == [Checks(p, true), Installs(p)]
    ensures r.states[2].core == Core(s.core.epoch, Some(p))
  {
    var s1 := Move(s, p, Installing);
    var s2 := Move(s1, p, Finished).(core := Core(s.core.epoch, Some(p)));
    assert CoreStep(s, Checks(p, true), s1) && CoreStep(s1, Installs(p), s2);
    r := Run([s, s1, s2], [Checks(p, true), Installs(p)]);
  }

  /** A typed unlock undisturbed reaches the core with the epoch of that moment. */
  lemma TypedReachesCore(s: State, p: Pid) returns (r: Run<State, Event>)
    requires At(s, p, Dismissing) && s.threads[p].kind.Typed?
    ensures IsRun(r, Anywhere, Next) && r.states[0] == s && r.events == [Dismisses(p), ReadsEpoch(p)]
    ensures At(r.states[2], p, Deriving) && r.states[2].threads[p].began == s.core.epoch && r.states[2].core == s.core
  {
    var t := s.threads[p];
    var out := if t.taken.Some? then multiset{t.taken.value} else multiset{};
    var s1 := Put(s, p, t.(pc := Reading, taken := None)).(dismissed := s.dismissed + out);
    var s2 := Put(s1, p, s1.threads[p].(pc := Deriving, began := s.core.epoch));
    assert PromptStep(s, Dismisses(p), s1) && CoreStep(s1, ReadsEpoch(p), s2);
    r := Run([s, s1, s2], [Dismisses(p), ReadsEpoch(p)]);
  }

  /** The job of the current attempt, undisturbed, gets its prompt up... */
  lemma CurrentAttemptPrompts(s: State, p: Pid) returns (r: Run<State, Event>)
    requires At(s, p, Reading) && s.threads[p].kind.Biometric? && s.threads[p].number == s.current.id
    ensures IsRun(r, Anywhere, Next) && r.states[0] == s && r.events == [ReadsEpoch(p), Decides(p), Shows(p)]
    ensures At(r.states[3], p, Waiting) && r.states[3].threads[p].began == s.core.epoch && r.states[3].core == s.core
    ensures r.states[3].current == Current(s.current.id, Some(p)) && r.states[3].threads[p].number == s.current.id
  {
    var t := s.threads[p];
    var s1 := Put(s, p, t.(pc := Deciding, began := s.core.epoch));
    var s2 := Move(s1, p, Prompting);
    var s3 := Put(s2, p, s2.threads[p].(pc := Waiting, shown := true)).(current := Current(s.current.id, Some(p)));
    assert CoreStep(s, ReadsEpoch(p), s1) && PromptStep(s1, Decides(p), s2) && PromptStep(s2, Shows(p), s3);
    r := Run([s, s1, s2, s3], [ReadsEpoch(p), Decides(p), Shows(p)]);
  }

  /** ... and, answered while still current and with the secret released, reaches the core
      with the epoch it had read. */
  lemma AnswerReachesCore(s: State, p: Pid) returns (r: Run<State, Event>)
    requires At(s, p, Waiting) && s.threads[p].number == s.current.id && s.core.session.None?
    ensures IsRun(r, Anywhere, Next) && r.states[0] == s && r.events == [Answers(p), Rechecks(p), Asks(p, true)]
    ensures At(r.states[3], p, Deriving) && r.states[3].threads[p].began == s.threads[p].began
    ensures r.states[3].core == s.core && r.states[3].current == Current(s.current.id, None)
  {
    var t := s.threads[p];
    var s1 := Put(s, p, t.(pc := Rechecking, answered := true, late := false)).(current := Current(s.current.id, None));
    var s2 := Move(s1, p, Asking);
    var s3 := Move(s2, p, Deriving);
    assert PromptStep(s, Answers(p), s1) && PromptStep(s1, Rechecks(p), s2) && PromptStep(s2, Asks(p, true), s3);
    r := Run([s, s1, s2, s3], [Answers(p), Rechecks(p), Asks(p, true)]);
  }

  // ---------- every prompt is taken down once, or not at all ----------

  ghost predicate Holds(s: State, p: Pid, j: Pid) {
    p in s.threads && s.threads[p].taken == Some(j)
  }

  ghost predicate Taken(s: State, j: Pid) {
    exists p :: Holds(s, p, j)
  }

  ghost predicate Held(s: State, j: Pid) {
    s.current.dismiss == Some(j) || Taken(s, j)
  }

  ghost predicate IsJob(s: State, j: Pid) {
    j in s.threads && s.threads[j].kind.Biometric?
  }

  /** A prompt that is up, or that answered too late, has its dismisser run. */
  predicate Owed(t: Thread) {
    t.shown && (t.answered ==> t.late)
  }

  predicate Unprompted(pc: Pc) {
    pc.Reading? || pc.Deciding? || pc.Prompting?
  }

  predicate PastPrompt(pc: Pc) {
    pc.Rechecking? || pc.Asking? || InCore(pc)
  }

  ghost predicate ThreadFits(s: State, p: Pid)
    requires p in s.threads
  {
    var t := s.threads[p];
    && (t.taken.Some? ==> t.pc == Dismissing || t.pc == Closing)
    && (t.pc.Deciding? || t.pc.Prompting? || t.pc.Waiting? || t.pc.Rechecking? || t.pc.Asking? ==> t.kind.Biometric?)
    && (t.shown ==> t.kind.Biometric?)
    && (t.late ==> t.answered && t.number < s.current.id)
    && (t.kind.Biometric? ==>
          && t.number <= s.current.id
          && t.pc != Closing
          && (Unprompted(t.pc) ==> !t.shown && !t.answered)
          && (t.pc == Waiting ==> t.shown && !t.answered)
          && (t.pc == Dismissing ==> t.shown && !t.answered && t.taken == Some(p))
          && (PastPrompt(t.pc) ==> (t.shown <==> t.answered)))
  }

  ghost predicate OneEach(s: State) {
    && (forall p, q :: IsJob(s, p) && IsJob(s, q) && s.threads[p].number == s.threads[q].number ==> p == q)
    && (forall p, q, j :: Holds(s, p, j) && Holds(s, q, j) ==> p == q)
  }

  ghost predicate Accounted(s: State, j: Pid) {
    && (s.current.dismiss == Some(j) ==>
          IsJob(s, j) && s.threads[j].pc == Waiting && s.threads[j].number == s.current.id)
    && (Held(s, j) ==> s.dismissed[j] == 0 && IsJob(s, j) && s.threads[j].shown)
    && (Taken(s, j) ==> s.threads[j].number < s.current.id)
    && s.dismissed[j] <= 1
    && (s.dismissed[j] == 1 ==> IsJob(s, j) && s.threads[j].shown && s.threads[j].number < s.current.id)
    && (IsJob(s, j) && Owed(s.threads[j]) ==> Held(s, j) || s.dismissed[j] == 1)
    && (IsJob(s, j) && s.threads[j].shown && !Owed(s.threads[j]) ==> !Held(s, j) && s.dismissed[j] == 0)
  }

  ghost predicate Inv(s: State) {
    && (forall p :: p in s.threads ==> ThreadFits(s, p))
    && OneEach(s)
    && (forall j: Pid :: Accounted(s, j))
  }

  lemma BeginFits(s: State, e: Event, s': State, p: Pid)
    requires BeginStep(s, e, s') && p in s'.threads && (p in s.threads ==> ThreadFits(s, p))
    ensures ThreadFits(s', p)
  {
  }

  lemma PromptFits(s: State, e: Event, s': State, p: Pid)
    requires PromptStep(s, e, s') && p in s.threads && ThreadFits(s, p)
    ensures ThreadFits(s', p)
  {
  }

  lemma CoreFits(s: State, e: Event, s': State, p: Pid)
    requires CoreStep(s, e, s') && p in s.threads && ThreadFits(s, p)
    ensures ThreadFits(s', p)
  {
  }

  lemma FitsKept(s: State, e: Event, s': State)
    requires Inv(s) && Next(s, e, s')
    ensures forall p :: p in s'.threads ==> ThreadFits(s', p)
  {
    forall p | p in s'.threads
      ensures ThreadFits(s', p)
    {
      assert p in s.threads ==> ThreadFits(s, p);
      if BeginStep(s, e, s') {
        BeginFits(s, e, s', p);
      } else if PromptStep(s, e, s') {
        PromptFits(s, e, s', p);
      } else {
        CoreFits(s, e, s', p);
      }
    }
  }

  lemma JobsStayDistinct(s: State, e: Event, s': State, p: Pid, q: Pid)
    requires Next(s, e, s') && IsJob(s', p) && IsJob(s', q) && s'.threads[p].number == s'.threads[q].number
    requires IsJob(s, p) && IsJob(s, q) && s.threads[p].number == s.threads[q].number ==> p == q
    ensures p == q
  {
    assert p in s.threads ==> IsJob(s, p);
    assert q in s.threads ==> IsJob(s, q);
  }

  lemma HoldersStayDistinct(s: State, e: Event, s': State, p: Pid, q: Pid, j: Pid)
    requires Next(s, e, s') && Accounted(s, j) && (j in s.threads ==> ThreadFits(s, j))
    requires Holds(s', p, j) && Holds(s', q, j)
    requires Holds(s, p, j) && Holds(s, q, j) ==> p == q
    ensures p == q
  {
    assert Holds(s, p, j) || p == e.p;
    assert Holds(s, q, j) || q == e.p;
  }

  lemma OneEachKept(s: State, e: Event, s': State)
    requires Inv(s) && Next(s, e, s')
    ensures OneEach(s')
  {
    forall p, q | IsJob(s', p) && IsJob(s', q) && s'.threads[p].number == s'.threads[q].number
      ensures p == q
    {
      JobsStayDistinct(s, e, s', p, q);
    }
    forall p: Pid, q: Pid, j: Pid | Holds(s', p, j) && Holds(s', q, j)
      ensures p == q
    {
      assert Accounted(s, j) && (j in s.threads ==> ThreadFits(s, j));
      HoldersStayDistinct(s, e, s', p, q, j);
    }
  }

  /** Who holds the dismisser of `j` after a step. */
  ghost predicate HandsOver(s: State, e: Event, s': State, j: Pid)
    requires Next(s, e, s')
  {
    Taken(s', j) <==>
      if e.Dismisses? && s.threads[e.p].taken == Some(j) then false
      else if e == Shows(j) then s.current.id != s.threads[j].number
      else Taken(s, j) || (s.current.dismiss == Some(j) && s.current.id != s'.current.id)
  }

  lemma TakenOnlyFrom(s: State, e: Event, s': State, j: Pid)
    requires Next(s, e, s') && Accounted(s, j) && (j in s.threads ==> ThreadFits(s, j)) && Taken(s', j)
    requires forall p, q :: Holds(s, p, j) && Holds(s, q, j) ==> p == q
    ensures !(e.Dismisses? && s.threads[e.p].taken == Some(j))
    ensures e == Shows(j) ==> s.current.id != s.threads[j].number
    ensures e == Shows(j) || Taken(s, j) || (s.current.dismiss == Some(j) && s.current.id != s'.current.id)
  {
    assert e.Dismisses? && s.threads[e.p].taken == Some(j) ==> Holds(s, e.p, j);
    var p :| Holds(s', p, j);
    assert Holds(s, p, j) || p == e.p;
  }

  lemma StaysTaken(s: State, e: Event, s': State, j: Pid)
    requires Next(s, e, s') && Taken(s, j) && !(e.Dismisses? && s.threads[e.p].taken == Some(j))
    requires forall p :: Holds(s, p, j) ==> s.threads[p].pc.Dismissing? || s.threads[p].pc.Closing?
    ensures Taken(s', j)
  {
    var p :| Holds(s, p, j);
    assert Holds(s', p, j);
  }

  lemma TakenAfter(s: State, e: Event, s': State, j: Pid)
    requires Next(s, e, s') && Accounted(s, j) && (j in s.threads ==> ThreadFits(s, j))
    requires forall p :: Holds(s, p, j) ==> s.threads[p].pc.Dismissing? || s.threads[p].pc.Closing?
    requires forall p, q :: Holds(s, p, j) && Holds(s, q, j) ==> p == q
    ensures HandsOver(s, e, s', j)
  {
    if Taken(s', j) {
      TakenOnlyFrom(s, e, s', j);
    } else {
      if Taken(s, j) && !(e.Dismisses? && s.threads[e.p].taken == Some(j)) {
        StaysTaken(s, e, s', j);
      }
      assert !Holds(s', e.p, j);
    }
  }

  /** The only dismisser the current attempt's job can find stored is its own. */
  lemma StoredIsOwn(s: State, p: Pid)
    requires Inv(s) && IsJob(s, p) && s.threads[p].number == s.current.id
    ensures s.current.dismiss.None? || s.current.dismiss == Some(p)
  {
    if s.current.dismiss.Some? {
      assert Accounted(s, s.current.dismiss.value);
    }
  }

  lemma AccountedKept(s: State, e: Event, s': State, j: Pid)
    requires Next(s, e, s') && HandsOver(s, e, s', j) && Accounted(s, j)
    requires j in s.threads ==> ThreadFits(s, j)
    requires e.Dismisses? && s.threads[e.p].taken == Some(j) ==> Taken(s, j)
    requires (e.Shows? || e.Answers?) && s.threads[e.p].number == s.current.id
      ==> s.current.dismiss.None? || s.current.dismiss == Some(e.p)
    ensures Accounted(s', j)
  {
    if BeginStep(s, e, s') {
    } else if PromptStep(s, e, s') {
    } else {
    }
  }

  lemma InvAlways(r: Run<State, Event>, i: nat)
    requires IsRun(r, Init, Next) && i < |r.states|
    ensures Inv(r.states[i])
  {
    forall s, e, s' | Inv(s) && Next(s, e, s')
      ensures Inv(s')
    {
      FitsKept(s, e, s');
      OneEachKept(s, e, s');
      forall j: Pid
        ensures Accounted(s', j)
      {
        assert forall p :: Holds(s, p, j) ==> ThreadFits(s, p);
        assert Accounted(s, j) && (j in s.threads ==> ThreadFits(s, j));
        TakenAfter(s, e, s', j);
        assert e.Dismisses? && s.threads[e.p].taken == Some(j) ==> Holds(s, e.p, j);
        if (e.Shows? || e.Answers?) && s.threads[e.p].number == s.current.id {
          assert ThreadFits(s, e.p);
          StoredIsOwn(s, e.p);
        }
        AccountedKept(s, e, s', j);
      }
    }
    Kept(r, Next, Inv, 0, i);
  }

  /** At every moment: a stored dismisser belongs to the attempt that is current,
      and no prompt has been taken down twice. */
  lemma DismissersInOrder(r: Run<State, Event>, i: nat, j: Pid)
    requires IsRun(r, Init, Next) && i < |r.states|
    ensures r.states[i].current.dismiss == Some(j) ==>
              j in r.states[i].threads && r.states[i].threads[j].number == r.states[i].current.id
    ensures r.states[i].dismissed[j] <= 1
  {
    InvAlways(r, i);
    assert Accounted(r.states[i], j);
  }

  ghost predicate Told(s: State, j: Pid, late: bool) {
    && IsJob(s, j) && s.threads[j].shown && s.threads[j].answered && s.threads[j].late == late
    && PastPrompt(s.threads[j].pc)
  }

  lemma ToldKept(s: State, e: Event, s': State, j: Pid, late: bool)
    requires Told(s, j, late) && Next(s, e, s')
    ensures Told(s', j, late)
  {
  }

  /** Once every thread is done, a prompt has been taken down exactly once if its
      attempt was over when it answered, and never if it was not. */
  lemma DismissedOnceIffOver(r: Run<State, Event>, k: nat, j: Pid)
    requires IsRun(r, Init, Next) && k < |r.events| && r.events[k] == Answers(j)
    requires forall p :: p in r.states[|r.events|].threads ==> r.states[|r.events|].threads[p].pc == Finished
    ensures j in r.states[k].threads
    ensures r.states[|r.events|].dismissed[j]
         == if r.states[k].current.id == r.states[k].threads[j].number then 0 else 1
  {
    assert Next(r.states[k], r.events[k], r.states[k + 1]);
    var late := r.states[k].current.id != r.states[k].threads[j].number;
    InvAlways(r, k);
    assert ThreadFits(r.states[k], j);
    forall s, e, s' | Told(s, j, late) && Next(s, e, s')
      ensures Told(s', j, late)
    {
      ToldKept(s, e, s', j, late);
    }
    Kept(r, Next, (s: State) => Told(s, j, late), k + 1, |r.events|);
    InvAlways(r, |r.events|);
    var s := r.states[|r.events|];
    assert Told(s, j, late) && Accounted(s, j);
    assert forall p :: p in s.threads ==> ThreadFits(s, p);
  }
}
