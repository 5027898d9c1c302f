/** The system agent's listener, started and revoked from many threads
    (client/src-tauri/src/system_agent.rs, with `lock` in commands.rs and the
    screen-lock signals of system_lock.rs).

    A start reads the revoke epoch, asks whether the vault is open and the screen
    unlocked, takes the `running` mutex, stops the old listener, binds a new one
    and arms it; a revoke bumps the epoch, takes the live token and cancels it
    afterwards. A vault lock revokes on both sides of locking the core. */
module SystemAgent {
  import opened Wrappers
  import opened Runs

  type Pid = nat
  type Token = nat

  /** The live listener's stop token, and the count of revokes. */
  datatype Live = Live(epoch: nat, stop: Option<Token>)

  function Revoked(l: Live): Live {
    Live(l.epoch + 1, None)
  }

  function Cleared(l: Live): Live {
    Live(l.epoch, None)
  }

  function Also(tokens: set<Token>, t: Option<Token>): set<Token> {
    if t.Some? then tokens + {t.value} else tokens
  }

  function Armed(l: Live, epoch: nat, stop: Token): Live {
    if l.epoch == epoch then Live(epoch, Some(stop)) else l
  }

  /** The controller's plain-mutex half. `cancelled` are the tokens cancelled so far. */
  class Controller {
    var epoch: nat
    var stop: Option<Token>
    var running: Option<Token>
    var cancelled: set<Token>

    function Value(): Live
      reads this
    {
      Live(epoch, stop)
    }

    constructor ()
      ensures Value() == Live(0, None) && running == None && cancelled == {}
    {
      epoch, stop, running, cancelled := 0, None, None, {};
    }

    method Revoke()
      modifies this`epoch, this`stop, this`cancelled
      ensures Value() == Revoked(old(Value()))
      ensures cancelled == Also(old(cancelled), old(stop))
    {
      epoch := epoch + 1;
      var taken := stop;
      stop := None;
      if taken.Some? {
        cancelled := cancelled + {taken.value};
      }
    }

    /** A token armed under an epoch that has passed is cancelled on the spot. */
    method Arm(since: nat, made: Token)
      modifies this`stop, this`cancelled
      ensures Value() == Armed(old(Value()), since, made)
      ensures cancelled == old(cancelled) + (if old(epoch) == since then {} else {made})
    {
      if epoch == since {
        stop := Some(made);
      } else {
        cancelled := cancelled + {made};
      }
    }

    /** Stops the listener held in `running`; the epoch is left alone. */
    method Stop()
      modifies this`stop, this`running, this`cancelled
      ensures Value() == Cleared(old(Value())) && running == None
      ensures cancelled == Also(old(cancelled), old(running))
    {
      stop := None;
      if running.Some? {
        cancelled := cancelled + {running.value};
        running := None;
      }
    }
  }

  // ---------- threads ----------

  /** A start: `resume` asks before it takes `running`, `enable` after. */
  datatype StartPc =
    | AskScreen   // is the screen locked
    | AskCore     // is the vault open
    | WantMutex   // `running` is taken next
    | Look        // resume: setting, epoch and "already serving"
    | Clear       // the live token is dropped
    | Cut         // the old listener is cancelled
    | Bind        // the new listener is bound
    | Bound(made: Token)   // the core is asked again
    | Arm(made: Token)     // it is made the live one, if the epoch stands
    | Drop(made: Token)    // it is cancelled instead
    | Discard(made: Token) // enable: the setting could not be saved; it is cancelled and not recorded
    | Publish(made: Token) // it is recorded, and `running` released
    | Done

  datatype Start = Start(enable: bool, pc: StartPc, epoch: nat)

  /** A revoke, `last` unless it is the first of a vault lock's two. */
  datatype RevokePc = Take | Cancel | LockCore | Over

  datatype Revoker = Revoker(pc: RevokePc, taken: Option<Token>, last: bool)

  datatype State = State(
    live: Live,
    issued: nat,
    cancelled: set<Token>,
    mutex: Option<Pid>,
    running: Option<Token>,
    open: bool,
    screenLocked: bool,
    starts: map<Pid, Start>,
    revokers: map<Pid, Revoker>)

  datatype Event =
    | Resumes(p: Pid)
    | Enables(p: Pid)
    | AsksScreen(p: Pid)
    | AsksCore(p: Pid)
    | TakesMutex(p: Pid)
    | Looks(p: Pid, go: bool)
    | Clears(p: Pid)
    | Cuts(p: Pid, on: bool)
    | Binds(p: Pid, ok: bool)
    | AsksAgain(p: Pid, saved: bool)
    | Arms(p: Pid)
    | Drops(p: Pid)
    | Discards(p: Pid)
    | Publishes(p: Pid)
    | Locks(p: Pid)
    | LocksScreen(p: Pid)
    | Suspends(p: Pid)
    | Takes(p: Pid)
    | Cancels(p: Pid)
    | LocksCore(p: Pid)
    | Unlocks
    | UnlocksScreen
    | ListenerFails(t: Token)

  ghost predicate Init(s: State) {
    s == State(Live(0, None), 0, {}, None, None, s.open, s.screenLocked, map[], map[])
  }

  /** The places where a start holds `running`. */
  predicate Holding(t: Start) {
    t.pc.Look? || t.pc.Clear? || t.pc.Cut? || t.pc.Publish? || Stopped(t)
  }

  /** ... having stopped the old listener, with none live yet. */
  predicate Stopped(t: Start) {
    || t.pc.Bind? || t.pc.Bound? || t.pc.Arm? || t.pc.Drop? || t.pc.Discard?
    || (t.enable && (t.pc.AskScreen? || t.pc.AskCore?))
  }

  /** ... with a listener of its own bound. */
  predicate HasMade(t: Start) {
    t.pc.Bound? || t.pc.Arm? || t.pc.Drop? || t.pc.Discard? || t.pc.Publish?
  }

  ghost predicate At(s: State, p: Pid, pc: StartPc) {
    p in s.starts && s.starts[p].pc == pc
  }

  ghost predicate RevokeAt(s: State, p: Pid, pc: RevokePc) {
    p in s.revokers && s.revokers[p].pc == pc
  }

  function Move(s: State, p: Pid, pc: StartPc): State
    requires p in s.starts
  {
    s.(starts := s.starts[p := s.starts[p].(pc := pc)])
  }

  /** The start ends; `running` is released if it holds it. */
  function Leave(s: State, p: Pid): State
    requires p in s.starts
  {
    s.(starts := s.starts[p := s.starts[p].(pc := Done)], mutex := if Holding(s.starts[p]) then None else s.mutex)
  }

  ghost predicate StartStep(s: State, e: Event, s': State) {
    match e
    case Resumes(p) => p !in s.starts && s' == s.(starts := s.starts[p := Start(false, AskScreen, s.live.epoch)])
    case Enables(p) => p !in s.starts && s' == s.(starts := s.starts[p := Start(true, WantMutex, s.live.epoch)])
    case AsksScreen(p) =>
      At(s, p, AskScreen) && s' == if s.screenLocked then Leave(s, p) else Move(s, p, AskCore)
    case AsksCore(p) =>
      && At(s, p, AskCore)
      && s' == if !s.open then Leave(s, p) else Move(s, p, if s.starts[p].enable then Bind else WantMutex)
    case TakesMutex(p) =>
      && At(s, p, WantMutex) && s.mutex.None?
      && s' == Move(s, p, if s.starts[p].enable then Clear else Look).(mutex := Some(p))
    case Looks(p, go) =>
      && At(s, p, Look) && (go ==> s.live.epoch == s.starts[p].epoch)
      && s' == if go then Move(s, p, Clear) else Leave(s, p)
    case _ => false
  }

  ghost predicate StopStep(s: State, e: Event, s': State) {
    match e
    case Clears(p) => At(s, p, Clear) && s' == Move(s, p, Cut).(live := Cleared(s.live))
    case Cuts(p, on) =>
      && At(s, p, Cut)
      && var cut := s.(running := None, cancelled := Also(s.cancelled, s.running));
      s' == if on then Move(cut, p, if s.starts[p].enable then AskScreen else Bind) else Leave(cut, p)
    case Binds(p, ok) =>
      && At(s, p, Bind)
      && s' == if ok then Move(s, p, Bound(s.issued)).(issued := s.issued + 1)
               else Leave(s, p)
    case _ => false
  }

  ghost predicate ArmStep(s: State, e: Event, s': State) {
    match e
    case AsksAgain(p, saved) =>
      && p in s.starts && s.starts[p].pc.Bound? && (saved || s.starts[p].enable)
      && var made := s.starts[p].pc.made;
      s' == Move(s, p, if !saved then Discard(made) else if s.open then Arm(made) else Drop(made))
    case Arms(p) =>
      && p in s.starts && s.starts[p].pc.Arm?
      && var made := s.starts[p].pc.made;
      s' == Move(s, p, if s.live.epoch == s.starts[p].epoch then Publish(made) else Drop(made))
            .(live := Armed(s.live, s.starts[p].epoch, made))
    case Drops(p) =>
      && p in s.starts && s.starts[p].pc.Drop?
      && s' == Move(s, p, Publish(s.starts[p].pc.made)).(cancelled := s.cancelled + {s.starts[p].pc.made})
    case Discards(p) =>
      p in s.starts && s.starts[p].pc.Discard? && s' == Leave(s, p).(cancelled := s.cancelled + {s.starts[p].pc.made})
    case Publishes(p) =>
      p in s.starts && s.starts[p].pc.Publish? && s' == Leave(s, p).(running := Some(s.starts[p].pc.made))
    case _ => false
  }

  ghost predicate RevokeStep(s: State, e: Event, s': State) {
    match e
    case Locks(p) => p !in s.revokers && s' == s.(revokers := s.revokers[p := Revoker(Take, None, false)])
    case LocksScreen(p) =>
      p !in s.revokers && s' == s.(revokers := s.revokers[p := Revoker(Take, None, true)], screenLocked := true)
    case Suspends(p) => p !in s.revokers && s' == s.(revokers := s.revokers[p := Revoker(Take, None, true)])
    case Takes(p) =>
      && RevokeAt(s, p, Take)
      && s' == s.(revokers := s.revokers[p := Revoker(Cancel, s.live.stop, s.revokers[p].last)],
                  live := Revoked(s.live))
    case Cancels(p) =>
      && RevokeAt(s, p, Cancel)
      && var t := s.revokers[p];
      s' == s.(revokers := s.revokers[p := Revoker(if t.last then Over else LockCore, None, t.last)],
               cancelled := Also(s.cancelled, t.taken))
    case LocksCore(p) =>
      RevokeAt(s, p, LockCore) && s' == s.(revokers := s.revokers[p := Revoker(Take, None, true)], open := false)
    case Unlocks => s' == s.(open := true)
    case UnlocksScreen => s' == s.(screenLocked := false)
    case ListenerFails(t) => t < s.issued && s' == s.(cancelled := s.cancelled + {t})
    case _ => false
  }

  ghost predicate Next(s: State, e: Event, s': State) {
    StartStep(s, e, s') || StopStep(s, e, s') || ArmStep(s, e, s') || RevokeStep(s, e, s')
  }

  // ---------- invariants of every run ----------

  ghost predicate Uncancelled(s: State, t: Token) {
    t < s.issued && t !in s.cancelled
  }

  /** The token is the live one, or a revoke has taken it and cancels it next. */
  ghost predicate Reachable(s: State, t: Token) {
    s.live.stop == Some(t) || exists p :: p in s.revokers && s.revokers[p].taken == Some(t)
  }

  ghost predicate StartFits(s: State, p: Pid) {
    p in s.starts ==>
      var t := s.starts[p];
      && (Holding(t) <==> s.mutex == Some(p))
      && (t.enable ==> !t.pc.Look?)
      && t.epoch <= s.live.epoch
      && (HasMade(t) ==> t.pc.made < s.issued)
      && (Stopped(t) || t.pc.Publish? ==> s.running.None?)
      && (Stopped(t) || t.pc.Cut? ==> s.live.stop.None?)
  }

  ghost predicate MutexFits(s: State) {
    s.mutex.Some? ==> s.mutex.value in s.starts && StartFits(s, s.mutex.value)
  }

  /** A token not cancelled is the recorded listener's or the one being started;
      and it is the live one or doomed, but for the moments of a stop or a start. */
  ghost predicate TokenFits(s: State, t: Token)
    requires MutexFits(s)
  {
    var holder := if s.mutex.Some? then Some(s.starts[s.mutex.value]) else None;
    && (s.running == Some(t) ==> t < s.issued)
    && (Uncancelled(s, t) ==>
          s.running == Some(t) || (holder.Some? && HasMade(holder.value) && holder.value.pc.made == t))
    && (Uncancelled(s, t) && s.running == Some(t) ==> Reachable(s, t) || (holder.Some? && holder.value.pc.Cut?))
    && (Uncancelled(s, t) && holder.Some? && holder.value.pc == Publish(t) ==> Reachable(s, t))
  }

  ghost predicate RevokerFits(s: State, p: Pid) {
    p in s.revokers && s.revokers[p].taken.Some? ==> s.revokers[p].pc.Cancel?
  }

  ghost predicate Inv(s: State) {
    && MutexFits(s)
    && (forall p: Pid :: StartFits(s, p))
    && (forall p: Pid :: RevokerFits(s, p))
    && (forall t: Token :: TokenFits(s, t))
  }

  lemma StartStepFits(s: State, e: Event, s': State)
    requires StartStep(s, e, s') && MutexFits(s) && StartFits(s, e.p)
    ensures StartFits(s', e.p)
  {
  }

  lemma StopStepFits(s: State, e: Event, s': State)
    requires StopStep(s, e, s') && MutexFits(s) && StartFits(s, e.p)
    ensures StartFits(s', e.p)
  {
  }

  lemma ArmStepFits(s: State, e: Event, s': State)
    requires ArmStep(s, e, s') && MutexFits(s) && StartFits(s, e.p)
    ensures StartFits(s', e.p)
  {
  }

  lemma OthersFitStart(s: State, e: Event, s': State, p: Pid)
    requires StartStep(s, e, s') && StartFits(s, p) && StartFits(s, e.p) && p != e.p
    ensures StartFits(s', p)
  {
  }

  lemma OthersFitStop(s: State, e: Event, s': State, p: Pid)
    requires StopStep(s, e, s') && StartFits(s, p) && StartFits(s, e.p) && p != e.p
    ensures StartFits(s', p)
  {
  }

  lemma OthersFitArm(s: State, e: Event, s': State, p: Pid)
    requires ArmStep(s, e, s') && StartFits(s, p) && StartFits(s, e.p) && p != e.p
    ensures StartFits(s', p)
  {
  }

  lemma RevokeStepFits(s: State, e: Event, s': State, p: Pid)
    requires RevokeStep(s, e, s') && StartFits(s, p)
    ensures StartFits(s', p)
  {
  }

  lemma StartStepTokens(s: State, e: Event, s': State, t: Token)
    requires StartStep(s, e, s') && MutexFits(s) && MutexFits(s') && TokenFits(s, t) && StartFits(s, e.p)
    ensures TokenFits(s', t)
  {
    assert s'.revokers == s.revokers;
  }

  lemma StopStepTokens(s: State, e: Event, s': State, t: Token)
    requires StopStep(s, e, s') && MutexFits(s) && MutexFits(s') && TokenFits(s, t) && StartFits(s, e.p)
    ensures TokenFits(s', t)
  {
    assert s'.revokers == s.revokers;
  }

  lemma ArmStepTokens(s: State, e: Event, s': State, t: Token)
    requires ArmStep(s, e, s') && MutexFits(s) && MutexFits(s') && TokenFits(s, t) && StartFits(s, e.p)
    ensures TokenFits(s', t)
  {
    assert s'.revokers == s.revokers;
  }

  lemma RevokeStepTokens(s: State, e: Event, s': State, t: Token)
    requires Inv(s) && RevokeStep(s, e, s') && MutexFits(s')
    ensures TokenFits(s', t)
  {
    assert TokenFits(s, t);
    if Reachable(s, t) && Uncancelled(s', t) {
      ReachableAfter(s, e, s', t);
    }
  }

  /** A token that is the live one, or doomed, stays so until it is cancelled. */
  lemma ReachableAfter(s: State, e: Event, s': State, t: Token)
    requires Inv(s) && RevokeStep(s, e, s') && Reachable(s, t) && Uncancelled(s', t)
    ensures Reachable(s', t)
  {
    if p :| p in s.revokers && s.revokers[p].taken == Some(t) {
      assert RevokerFits(s, p);
      assert p in s'.revokers && s'.revokers[p].taken == Some(t);
    } else if e.Takes? {
      assert s'.revokers[e.p].taken == Some(t);
    }
  }

  lemma StartsKept(s: State, e: Event, s': State, p: Pid)
    requires Inv(s) && Next(s, e, s')
    ensures StartFits(s', p)
  {
    assert StartFits(s, p);
    if RevokeStep(s, e, s') {
      RevokeStepFits(s, e, s', p);
    } else {
      assert StartFits(s, e.p);
      if StartStep(s, e, s') {
        if p == e.p {
          StartStepFits(s, e, s');
        } else {
          OthersFitStart(s, e, s', p);
        }
      } else if StopStep(s, e, s') {
        if p == e.p {
          StopStepFits(s, e, s');
        } else {
          OthersFitStop(s, e, s', p);
        }
      } else if p == e.p {
        ArmStepFits(s, e, s');
      } else {
        OthersFitArm(s, e, s', p);
      }
    }
  }

  lemma TokensKept(s: State, e: Event, s': State, t: Token)
    requires Inv(s) && Next(s, e, s') && MutexFits(s')
    ensures TokenFits(s', t)
  {
    assert TokenFits(s, t);
    if RevokeStep(s, e, s') {
      RevokeStepTokens(s, e, s', t);
    } else {
      assert StartFits(s, e.p);
      if StartStep(s, e, s') {
        StartStepTokens(s, e, s', t);
      } else if StopStep(s, e, s') {
        StopStepTokens(s, e, s', t);
      } else {
        ArmStepTokens(s, e, s', t);
      }
    }
  }

  lemma RevokersKept(s: State, e: Event, s': State, p: Pid)
    requires Next(s, e, s') && RevokerFits(s, p)
    ensures RevokerFits(s', p)
  {
    assert !RevokeStep(s, e, s') ==> s'.revokers == s.revokers;
  }

  lemma MutexKept(s: State, e: Event, s': State)
    requires Next(s, e, s') && MutexFits(s) && (s'.mutex.Some? ==> StartFits(s', s'.mutex.value))
    ensures MutexFits(s')
  {
  }

  lemma InvKept(s: State, e: Event, s': State)
    requires Inv(s) && Next(s, e, s')
    ensures Inv(s')
  {
    forall p: Pid
      ensures StartFits(s', p) && RevokerFits(s', p)
    {
      StartsKept(s, e, s', p);
      assert RevokerFits(s, p);
      RevokersKept(s, e, s', p);
    }
    MutexKept(s, e, s');
    forall t: Token
      ensures TokenFits(s', t)
    {
      TokensKept(s, e, s', t);
    }
  }

  lemma InvAlways(r: Run<State, Event>, i: nat)
    requires IsRun(r, Init, Next) && i < |r.states|
    ensures Inv(r.states[i])
  {
    forall s, e, s' | Inv(s) && Next(s, e, s')
      ensures Inv(s')
    {
      InvKept(s, e, s');
    }
    Kept(r, Next, Inv, 0, i);
  }

  /** At no moment of any run do two listeners stand uncancelled. */
  lemma AtMostOneListener(r: Run<State, Event>, i: nat, t: Token, u: Token)
    requires IsRun(r, Init, Next) && i < |r.states|
    requires Uncancelled(r.states[i], t) && Uncancelled(r.states[i], u)
    ensures t == u
  {
    InvAlways(r, i);
    assert TokenFits(r.states[i], t) && TokenFits(r.states[i], u);
  }

  // ---------- a lock leaves no listener ----------

  /** What ended: the screen is locked, or else the vault is. */
  ghost predicate Closed(s: State, screen: bool) {
    if screen then s.screenLocked else !s.open
  }

  /** The start has not yet asked, or was told no. */
  predicate NotLetIn(t: Start, screen: bool) {
    || t.pc.AskScreen? || (t.pc.AskCore? && !screen) || t.pc.Done?
    || (t.enable && (t.pc.WantMutex? || t.pc.Clear? || t.pc.Cut?))
  }

  /** Since a revoke made the epoch `epoch` with the vault (or the screen) locked. */
  ghost predicate Shut(s: State, epoch: nat, screen: bool) {
    && Closed(s, screen)
    && s.live.epoch >= epoch
    && s.live.stop.None?
    && forall p :: p in s.starts && s.starts[p].epoch >= epoch ==> NotLetIn(s.starts[p], screen)
  }

  ghost predicate StaysClosed(e: Event, screen: bool) {
    if screen then !e.UnlocksScreen? else !e.Unlocks?
  }

  /** A start that read the epoch since is still not let in. */
  lemma ShutOutAtStart(s: State, e: Event, s': State, p: Pid, epoch: nat, screen: bool)
    requires Shut(s, epoch, screen) && StartStep(s, e, s')
    requires p in s'.starts && s'.starts[p].epoch >= epoch
    ensures NotLetIn(s'.starts[p], screen)
  {
    assert p in s.starts ==> s.starts[p].epoch == s'.starts[p].epoch;
  }

  lemma ShutOutAtStop(s: State, e: Event, s': State, p: Pid, epoch: nat, screen: bool)
    requires Shut(s, epoch, screen) && StopStep(s, e, s')
    requires p in s'.starts && s'.starts[p].epoch >= epoch
    ensures NotLetIn(s'.starts[p], screen)
  {
    assert p in s.starts && s.starts[p].epoch == s'.starts[p].epoch;
  }

  lemma ShutOutElsewhere(s: State, e: Event, s': State, p: Pid, epoch: nat, screen: bool)
    requires Shut(s, epoch, screen) && (ArmStep(s, e, s') || RevokeStep(s, e, s'))
    requires p in s'.starts && s'.starts[p].epoch >= epoch
    ensures NotLetIn(s'.starts[p], screen)
  {
    assert p in s.starts && s.starts[p].epoch == s'.starts[p].epoch;
  }

  lemma ShutKept(s: State, e: Event, s': State, epoch: nat, screen: bool)
    requires Shut(s, epoch, screen) && Next(s, e, s') && StaysClosed(e, screen)
    ensures Shut(s', epoch, screen)
  {
    forall p | p in s'.starts && s'.starts[p].epoch >= epoch
      ensures NotLetIn(s'.starts[p], screen)
    {
      if StartStep(s, e, s') {
        ShutOutAtStart(s, e, s', p, epoch, screen);
      } else if StopStep(s, e, s') {
        ShutOutAtStop(s, e, s', p, epoch, screen);
      } else {
        ShutOutElsewhere(s, e, s', p, epoch, screen);
      }
    }
  }

  /** From the revoke at `k` on, with nothing unlocked since `c`. */
  lemma ShutSince(r: Run<State, Event>, l: Pid, c: nat, k: nat, d: nat, screen: bool)
    requires IsRun(r, Init, Next) && c < k < d < |r.states|
    requires r.events[k] == Takes(l) && Closed(r.states[c + 1], screen)
    requires forall i :: c < i < d ==> StaysClosed(r.events[i], screen)
    ensures Shut(r.states[d], r.states[k + 1].live.epoch, screen)
  {
    var epoch := r.states[k + 1].live.epoch;
    var step := (s: State, e: Event, s': State) => Next(s, e, s') && StaysClosed(e, screen);
    Kept(r, step, (s: State) => Closed(s, screen), c + 1, k + 1);
    InvAlways(r, k);
    assert Next(r.states[k], r.events[k], r.states[k + 1]);
    var after := r.states[k + 1];
    forall p | p in after.starts
      ensures after.starts[p].epoch < epoch
    {
      assert StartFits(r.states[k], p);
    }
    assert Shut(r.states[k + 1], epoch, screen);
    forall s, e, s' | Shut(s, epoch, screen) && step(s, e, s')
      ensures Shut(s', epoch, screen)
    {
      ShutKept(s, e, s', epoch, screen);
    }
    Kept(r, step, (s: State) => Shut(s, epoch, screen), k + 1, d);
  }

  /** No start is between taking and releasing `running`, and no revoke is
      between taking a token and cancelling it. */
  ghost predicate Settled(s: State) {
    s.mutex.None? && forall p :: p in s.revokers ==> s.revokers[p].taken.None?
  }

  lemma NothingListens(s: State, epoch: nat, screen: bool)
    requires Inv(s) && Settled(s) && Shut(s, epoch, screen)
    ensures forall t: Token :: !Uncancelled(s, t)
  {
    forall t: Token
      ensures !Uncancelled(s, t)
    {
      assert TokenFits(s, t);
    }
  }

  /** After a vault lock's second revoke, until the vault is unlocked again: once
      the starts and revokes under way have finished, no listener stands. */
  lemma LockLeavesNoListener(r: Run<State, Event>, l: Pid, c: nat, k: nat, d: nat)
    requires IsRun(r, Init, Next) && c < k < d < |r.states|
    requires r.events[c] == LocksCore(l) && r.events[k] == Takes(l)
    requires forall i :: c < i < d ==> !r.events[i].Unlocks?
    requires Settled(r.states[d])
    ensures forall t: Token :: !Uncancelled(r.states[d], t)
  {
    assert Next(r.states[c], r.events[c], r.states[c + 1]);
    ShutSince(r, l, c, k, d, false);
    InvAlways(r, d);
    NothingListens(r.states[d], r.states[k + 1].live.epoch, false);
  }

  /** The same for a screen lock, whose one revoke comes after the screen is marked
      locked, until the screen is unlocked. */
  lemma ScreenLockLeavesNoListener(r: Run<State, Event>, l: Pid, c: nat, k: nat, d: nat)
    requires IsRun(r, Init, Next) && c < k < d < |r.states|
    requires r.events[c] == LocksScreen(l) && r.events[k] == Takes(l)
    requires forall i :: c < i < d ==> !r.events[i].UnlocksScreen?
    requires Settled(r.states[d])
    ensures forall t: Token :: !Uncancelled(r.states[d], t)
  {
    assert Next(r.states[c], r.events[c], r.states[c + 1]);
    ShutSince(r, l, c, k, d, true);
    InvAlways(r, d);
    NothingListens(r.states[d], r.states[k + 1].live.epoch, true);
  }

  // ---------- a start that no revoke overtakes makes its listener the live one ----------

  lemma {:induction false} EpochMovesAtRevokes(r: Run<State, Event>, lo: nat, hi: nat)
    requires IsRun(r, Init, Next) && lo <= hi < |r.states|
    ensures r.states[lo].live.epoch <= r.states[hi].live.epoch
    ensures r.states[lo].live.epoch == r.states[hi].live.epoch <==> forall i :: lo <= i < hi ==> !r.events[i].Takes?
    decreases hi - lo
  {
    if lo < hi {
      EpochMovesAtRevokes(r, lo, hi - 1);
      EpochStep(r.states[hi - 1], r.events[hi - 1], r.states[hi]);
    }
  }

  lemma EpochStep(s: State, e: Event, s': State)
    requires Next(s, e, s')
    ensures s'.live.epoch == s.live.epoch + if e.Takes? then 1 else 0
  {
  }

  ghost predicate Started(s: State, p: Pid, epoch: nat) {
    p in s.starts && s.starts[p].epoch == epoch
  }

  lemma StartedKept(s: State, e: Event, s': State, p: Pid, epoch: nat)
    requires Next(s, e, s') && Started(s, p, epoch)
    ensures Started(s', p, epoch)
  {
  }

  /** Over every run: arming makes a start's listener the live one if and only if nothing was
      revoked since the start began; otherwise the listener is cancelled next. */
  lemma StartArmsIff(r: Run<State, Event>, c: nat, d: nat, p: Pid)
    requires IsRun(r, Init, Next) && c < d < |r.events|
    requires (r.events[c] == Resumes(p) || r.events[c] == Enables(p)) && r.events[d] == Arms(p)
    ensures p in r.states[d].starts && r.states[d].starts[p].pc.Arm?
    ensures var made := r.states[d].starts[p].pc.made;
            if forall i :: c < i < d ==> !r.events[i].Takes? then
              r.states[d + 1].live.stop == Some(made) && At(r.states[d + 1], p, Publish(made))
            else r.states[d + 1].live.stop.None? && At(r.states[d + 1], p, Drop(made))
  {
    var epoch := r.states[c].live.epoch;
    assert Next(r.states[c], r.events[c], r.states[c + 1]) && Next(r.states[d], r.events[d], r.states[d + 1]);
    forall s, e, s' | Started(s, p, epoch) && Next(s, e, s')
      ensures Started(s', p, epoch)
    {
      StartedKept(s, e, s', p, epoch);
    }
    Kept(r, Next, (s: State) => Started(s, p, epoch), c + 1, d);
    EpochMovesAtRevokes(r, c, d);
    InvAlways(r, d);
    assert Started(r.states[d], p, epoch) && StartFits(r.states[d], p);
  }

  /** The state with start `p` standing at `pc`, and `running` held by it or not. */
  function With(s: State, p: Pid, pc: StartPc, mutex: Option<Pid>): State
    requires p in s.starts
  {
    s.(starts := s.starts[p := s.starts[p].(pc := pc)], mutex := mutex)
  }

  /** A resume undisturbed, the screen unlocked and the vault open, gets to stop the old
      listener... */
  lemma ResumeGoesAhead(s: State, p: Pid) returns (r: Run<State, Event>)
    requires At(s, p, AskScreen) && !s.starts[p].enable && s.starts[p].epoch == s.live.epoch
    requires !s.screenLocked && s.open && s.mutex.None?
    ensures IsRun(r, Anywhere, Next) && r.states[0] == s
    ensures r.events == [AsksScreen(p), AsksCore(p), TakesMutex(p), Looks(p, true)]
    ensures r.states[4] == With(s, p, Clear, Some(p))
  {
    var s1, s2 := With(s, p, AskCore, None), With(s, p, WantMutex, None);
    var s3, s4 := With(s, p, Look, Some(p)), With(s, p, Clear, Some(p));
    assert StartStep(s, AsksScreen(p), s1) && StartStep(s1, AsksCore(p), s2);
    assert StartStep(s2, TakesMutex(p), s3) && StartStep(s3, Looks(p, true), s4);
    r := Run([s, s1, s2, s3, s4], [AsksScreen(p), AsksCore(p), TakesMutex(p), Looks(p, true)]);
  }

  /** ... which it does, */
  lemma OldListenerStopped(s: State, p: Pid) returns (r: Run<State, Event>)
    requires At(s, p, Clear) && s.mutex == Some(p)
    ensures IsRun(r, Anywhere, Next) && r.states[0] == s && r.events == [Clears(p), Cuts(p, true)]
    ensures r.states[2] == With(s, p, if s.starts[p].enable then AskScreen else Bind, Some(p))
                           .(live := Live(s.live.epoch, None), running := None,
                             cancelled := s.cancelled + if s.running.Some? then {s.running.value} else {})
  {
    var s1 := With(s, p, Cut, Some(p)).(live := Live(s.live.epoch, None));
    var s2 := With(s1, p, if s.starts[p].enable then AskScreen else Bind, Some(p))
              .(running := None, cancelled := s.cancelled + if s.running.Some? then {s.running.value} else {});
    assert StopStep(s, Clears(p), s1) && StopStep(s1, Cuts(p, true), s2);
    r := Run([s, s1, s2], [Clears(p), Cuts(p, true)]);
  }

  /** ... and then binds a new one, which ends up live, recorded and uncancelled. */
  lemma NewListenerLives(s: State, p: Pid) returns (r: Run<State, Event>)
    requires At(s, p, Bind) && s.mutex == Some(p) && s.starts[p].epoch == s.live.epoch && s.open
    requires s.issued !in s.cancelled
    ensures IsRun(r, Anywhere, Next) && r.states[0] == s
    ensures r.events == [Binds(p, true), AsksAgain(p, true), Arms(p), Publishes(p)]
    ensures var t := r.states[4];
            && t.live == Live(s.live.epoch, Some(s.issued)) && t.running == Some(s.issued) && t.mutex.None?
            && Uncancelled(t, s.issued) && At(t, p, Done)
  {
    var m := s.issued;
    var s1 := With(s, p, Bound(m), Some(p)).(issued := m + 1);
    var s2 := With(s1, p, Arm(m), Some(p));
    var s3 := With(s1, p, Publish(m), Some(p)).(live := Live(s.live.epoch, Some(m)));
    var s4 := With(s3, p, Done, None).(running := Some(m));
    assert StopStep(s, Binds(p, true), s1) && ArmStep(s1, AsksAgain(p, true), s2);
    assert ArmStep(s2, Arms(p), s3) && ArmStep(s3, Publishes(p), s4);
    r := Run([s, s1, s2, s3, s4], [Binds(p, true), AsksAgain(p, true), Arms(p), Publishes(p)]);
  }

  /** Enabling asks after it has stopped the old listener, and goes on alike. */
  lemma EnableGoesAhead(s: State, p: Pid) returns (r: Run<State, Event>)
    requires At(s, p, AskScreen) && s.starts[p].enable && s.mutex == Some(p) && !s.screenLocked && s.open
    ensures IsRun(r, Anywhere, Next) && r.states[0] == s && r.events == [AsksScreen(p), AsksCore(p)]
    ensures r.states[2] == With(s, p, Bind, Some(p))
  {
    var s1, s2 := With(s, p, AskCore, Some(p)), With(s, p, Bind, Some(p));
    assert StartStep(s, AsksScreen(p), s1) && StartStep(s1, AsksCore(p), s2);
    r := Run([s, s1, s2], [AsksScreen(p), AsksCore(p)]);
  }

  /** Enabling takes `running` first. */
  lemma EnableTakesMutex(s: State, p: Pid)
    requires At(s, p, WantMutex) && s.starts[p].enable && s.mutex.None?
    ensures Next(s, TakesMutex(p), With(s, p, Clear, Some(p)))
  {
    assert StartStep(s, TakesMutex(p), With(s, p, Clear, Some(p)));
  }

  /** Only listeners that were bound are ever cancelled, so a new one never is beforehand. */
  lemma CancelledWereBound(r: Run<State, Event>, i: nat)
    requires IsRun(r, Init, Next) && i < |r.states|
    ensures r.states[i].issued !in r.states[i].cancelled
  {
    forall s, e, s' | BoundOnly(s) && Inv(s) && Next(s, e, s')
      ensures BoundOnly(s') && Inv(s')
    {
      BoundOnlyKept(s, e, s');
      InvKept(s, e, s');
    }
    Kept(r, Next, (s: State) => BoundOnly(s) && Inv(s), 0, i);
  }

  /** Tokens in use are bound ones. */
  ghost predicate BoundOnly(s: State) {
    && (forall t :: t in s.cancelled ==> t < s.issued)
    && (s.live.stop.Some? ==> s.live.stop.value < s.issued)
    && (forall p :: p in s.revokers && s.revokers[p].taken.Some? ==> s.revokers[p].taken.value < s.issued)
  }

  lemma BoundOnlyKept(s: State, e: Event, s': State)
    requires BoundOnly(s) && Inv(s) && Next(s, e, s')
    ensures BoundOnly(s')
  {
    if s.running.Some? {
      assert TokenFits(s, s.running.value);
    }
    if RevokeStep(s, e, s') {
      RevokeBoundOnly(s, e, s');
    } else {
      assert StartFits(s, e.p);
      assert s'.revokers == s.revokers && s.issued <= s'.issued;
    }
  }

  lemma RevokeBoundOnly(s: State, e: Event, s': State)
    requires BoundOnly(s) && RevokeStep(s, e, s')
    ensures BoundOnly(s')
  {
  }

  /** A revoke, once it has taken the live token, cancels exactly that one. */
  lemma RevokeCancelsLive(s: State, p: Pid) returns (r: Run<State, Event>)
    requires RevokeAt(s, p, Take) && s.live.stop.Some?
    ensures IsRun(r, Anywhere, Next) && r.states[0] == s && r.events == [Takes(p), Cancels(p)]
    ensures r.states[2].cancelled == s.cancelled + {s.live.stop.value}
    ensures r.states[2].live == Live(s.live.epoch + 1, None)
    ensures RevokeAt(r.states[2], p, if s.revokers[p].last then Over else LockCore)
  {
    var s1 := s.(revokers := s.revokers[p := Revoker(Cancel, s.live.stop, s.revokers[p].last)],
                 live := Live(s.live.epoch + 1, None));
    var last := s.revokers[p].last;
    var s2 := s1.(revokers := s1.revokers[p := Revoker(if last then Over else LockCore, None, last)],
                  cancelled := s.cancelled + {s.live.stop.value});
    assert RevokeStep(s, Takes(p), s1) && RevokeStep(s1, Cancels(p), s2);
    r := Run([s, s1, s2], [Takes(p), Cancels(p)]);
  }

  /** A vault lock revokes, locks the core and revokes again. */
  lemma LockRevokesTwice(r: Run<State, Event>, c: nat, p: Pid)
    requires IsRun(r, Init, Next) && c < |r.events| && r.events[c] == LocksCore(p)
    ensures !r.states[c + 1].open && RevokeAt(r.states[c + 1], p, Take)
    ensures exists k: nat :: k < c && r.events[k] == Cancels(p)
  {
    assert Next(r.states[c], r.events[c], r.states[c + 1]);
    CameFromCancel(r, c, p);
  }

  lemma {:induction false} CameFromCancel(r: Run<State, Event>, n: nat, p: Pid)
    requires IsRun(r, Init, Next) && n < |r.states| && RevokeAt(r.states[n], p, LockCore)
    ensures exists k: nat :: k < n && r.events[k] == Cancels(p)
  {
    if n > 0 {
      assert Next(r.states[n - 1], r.events[n - 1], r.states[n]);
      if RevokeAt(r.states[n - 1], p, LockCore) {
        CameFromCancel(r, n - 1, p);
      } else {
        assert r.events[n - 1] == Cancels(p);
      }
    }
  }

  // ---------- what a start has behind it ----------

  /** A resume stops the old listener only if nothing was revoked since it began. */
  lemma ResumeGoesOnUnrevoked(r: Run<State, Event>, c: nat, d: nat, p: Pid)
    requires IsRun(r, Init, Next) && c < d < |r.events| && r.events[c] == Resumes(p) && r.events[d] == Looks(p, true)
    ensures forall i :: c < i < d ==> !r.events[i].Takes?
  {
    var epoch := r.states[c].live.epoch;
    assert Next(r.states[c], r.events[c], r.states[c + 1]) && Next(r.states[d], r.events[d], r.states[d + 1]);
    forall s, e, s' | Started(s, p, epoch) && Next(s, e, s')
      ensures Started(s', p, epoch)
    {
      StartedKept(s, e, s', p, epoch);
    }
    Kept(r, Next, (s: State) => Started(s, p, epoch), c + 1, d);
    assert Started(r.states[d], p, epoch);
    EpochMovesAtRevokes(r, c, d);
  }

  ghost predicate FoundOpen(r: Run<State, Event>, i: nat, p: Pid)
    requires r.Shaped()
  {
    i < |r.events| && r.events[i] == AsksAgain(p, true) && r.states[i].open
  }

  lemma ReachesArm(s: State, e: Event, s': State, p: Pid)
    requires Next(s, e, s') && p in s'.starts && s'.starts[p].pc.Arm? && !(p in s.starts && s.starts[p].pc.Arm?)
    ensures e == AsksAgain(p, true) && s.open
  {
    if StartStep(s, e, s') || StopStep(s, e, s') {
      NotYetArming(s, e, s', p);
    }
  }

  lemma NotYetArming(s: State, e: Event, s': State, p: Pid)
    requires (StartStep(s, e, s') || StopStep(s, e, s')) && p in s'.starts && s'.starts[p].pc.Arm?
    ensures p in s.starts && s.starts[p].pc.Arm?
  {
  }

  /** A listener is armed only after the vault was found open with the listener bound and,
      where the setting is saved, after that was done. */
  lemma {:induction false} ArmsOnlyIfOpen(r: Run<State, Event>, n: nat, p: Pid)
    requires IsRun(r, Init, Next) && n < |r.states| && p in r.states[n].starts && r.states[n].starts[p].pc.Arm?
    ensures exists i: nat :: i < n && FoundOpen(r, i, p)
  {
    if n > 0 {
      assert Next(r.states[n - 1], r.events[n - 1], r.states[n]);
      if p in r.states[n - 1].starts && r.states[n - 1].starts[p].pc.Arm? {
        ArmsOnlyIfOpen(r, n - 1, p);
      } else {
        ReachesArm(r.states[n - 1], r.events[n - 1], r.states[n], p);
        assert FoundOpen(r, n - 1, p);
      }
    }
  }

  /** A suspend revokes too, and stops there. */
  lemma SuspendRevokes(s: State, p: Pid) returns (r: Run<State, Event>)
    requires p !in s.revokers && s.live.stop.Some?
    ensures IsRun(r, Anywhere, Next) && r.states[0] == s && r.events == [Suspends(p), Takes(p), Cancels(p)]
    ensures r.states[3].cancelled == s.cancelled + {s.live.stop.value} && RevokeAt(r.states[3], p, Over)
  {
    var s1 := s.(revokers := s.revokers[p := Revoker(Take, None, true)]);
    assert RevokeStep(s, Suspends(p), s1);
    var q := RevokeCancelsLive(s1, p);
    assert Next(q.states[0], q.events[0], q.states[1]) && Next(q.states[1], q.events[1], q.states[2]);
    r := Run([s, s1, q.states[1], q.states[2]], [Suspends(p), Takes(p), Cancels(p)]);
  }
}
