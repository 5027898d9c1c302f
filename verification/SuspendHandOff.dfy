/** Holding a suspend open until the vault is shut (client/src-tauri/src/system_lock.rs).

    A hand-off is armed with a fresh token before the window is told, waits for
    the answer that names the token, and closes the slot. The slot holds the
    sending half of the wait's channel: whoever drops it unanswered wakes the wait
    at once, as a disconnected channel does. */
module SuspendHandOff {
  import opened Wrappers
  import opened Runs

  type Token = nat

  /** The slot after an answer: empty if it held the hand-off the answer names. */
  function Acked(slot: Option<Token>, token: Token): Option<Token> {
    if slot == Some(token) then None else slot
  }

  /** The slot, one thread at a time. `released` are the waits that were answered. */
  class Slot {
    var next: Token
    var open: Option<Token>
    var released: set<Token>

    constructor ()
      ensures next == 1 && open == None && released == {}
    {
      next, open, released := 1, None, {};
    }

    method Arm() returns (token: Token)
      modifies this`next, this`open
      ensures token == old(next) && next == token + 1 && open == Some(token)
    {
      token := next;
      next := next + 1;
      open := Some(token);
    }

    method Close()
      modifies this`open
      ensures open == None
    {
      open := None;
    }

    /** An answer releases the hand-off it names, and no other. */
    method Ack(token: Token)
      modifies this`open, this`released
      ensures open == Acked(old(open), token)
      ensures released == if open != old(open) then old(released) + {token} else old(released)
    {
      if open == Some(token) {
        open := None;
        released := released + {token};
      }
    }
  }

  // ---------- any number of hand-offs and answers ----------

  /** The sending half of a wait's channel. */
  datatype Sender = InSlot | Taken | Sent | Dropped

  datatype Wait = Waiting | Answered | Disconnected | TimedOut | Closed

  datatype HandOff = HandOff(sender: Sender, wait: Wait)

  datatype State = State(next: Token, slot: Option<Token>, handOffs: map<Token, HandOff>)

  datatype Event =
    | Arms
    | Acks(t: Token)
    | Sends(t: Token)
    | WakesAnswered(t: Token)
    | WakesDisconnected(t: Token)
    | TimesOut(t: Token)
    | Closes(t: Token)

  ghost predicate Init(s: State) {
    s == State(1, None, map[])
  }

  /** Whatever was in the slot is dropped unanswered. */
  function Replaced(s: State, slot: Option<Token>): State {
    s.(slot := slot,
       handOffs := if s.slot.Some? && s.slot.value in s.handOffs
                   then s.handOffs[s.slot.value := s.handOffs[s.slot.value].(sender := Dropped)] else s.handOffs)
  }

  function WaitIs(s: State, t: Token, w: Wait): State
    requires t in s.handOffs
  {
    s.(handOffs := s.handOffs[t := s.handOffs[t].(wait := w)])
  }

  ghost predicate Next(s: State, e: Event, s': State) {
    match e
    case Arms =>
      && var r := Replaced(s, Some(s.next));
      s' == r.(next := s.next + 1, handOffs := r.handOffs[s.next := HandOff(InSlot, Waiting)])
    case Acks(t) =>
      s' == s.(slot := Acked(s.slot, t),
               handOffs := if s.slot == Some(t) && t in s.handOffs
                           then s.handOffs[t := s.handOffs[t].(sender := Taken)] else s.handOffs)
    case Sends(t) =>
      && t in s.handOffs && s.handOffs[t].sender.Taken?
      && s' == s.(handOffs := s.handOffs[t := s.handOffs[t].(sender := Sent)])
    case WakesAnswered(t) =>
      t in s.handOffs && s.handOffs[t] == HandOff(Sent, Waiting) && s' == WaitIs(s, t, Answered)
    case WakesDisconnected(t) =>
      t in s.handOffs && s.handOffs[t] == HandOff(Dropped, Waiting) && s' == WaitIs(s, t, Disconnected)
    case TimesOut(t) =>
      t in s.handOffs && s.handOffs[t].wait.Waiting? && s' == WaitIs(s, t, TimedOut)
    case Closes(t) =>
      && t in s.handOffs && !s.handOffs[t].wait.Waiting? && !s.handOffs[t].wait.Closed?
      && s' == Replaced(WaitIs(s, t, Closed), None)
  }

  /** The hand-off is over: its wait has ended and it has closed the slot. */
  ghost predicate Over(s: State, t: Token) {
    t in s.handOffs && s.handOffs[t].wait.Closed?
  }

  ghost predicate Inv(s: State) {
    && (forall t :: t in s.handOffs ==> t < s.next)
    && (s.slot.Some? ==> s.slot.value in s.handOffs && s.handOffs[s.slot.value].sender.InSlot?)
    && (forall t :: t in s.handOffs && s.handOffs[t].sender.InSlot? ==> s.slot == Some(t))
  }

  lemma InvAlways(r: Run<State, Event>, i: nat)
    requires IsRun(r, Init, Next) && i < |r.states|
    ensures Inv(r.states[i])
  {
    Kept(r, Next, Inv, 0, i);
  }

  /** An answer that names the hand-off, made while it was armed. */
  ghost predicate AckedAt(r: Run<State, Event>, i: nat, t: Token)
    requires r.Shaped()
  {
    i < |r.events| && r.events[i] == Acks(t) && r.states[i].slot == Some(t)
  }

  /** A wait is answered only by an answer carrying its own token, made while its
      own hand-off held the slot: one for an abandoned suspend releases nothing. */
  lemma {:induction false} AnsweredOnlyByOwnAck(r: Run<State, Event>, n: nat, t: Token)
    requires IsRun(r, Init, Next) && n < |r.states| && t in r.states[n].handOffs
    requires var h := r.states[n].handOffs[t]; h.wait.Answered? || h.sender.Taken? || h.sender.Sent?
    ensures exists i: nat :: i < n && AckedAt(r, i, t)
  {
    if n > 0 {
      var s, e, s' := r.states[n - 1], r.events[n - 1], r.states[n];
      assert Next(s, e, s');
      InvAlways(r, n - 1);
      if e == Acks(t) && s.slot == Some(t) {
        assert AckedAt(r, n - 1, t);
      } else {
        AnsweredOnlyByOwnAck(r, n - 1, t);
      }
    }
  }

  /** Another hand-off begins or closes while `t` is not over. */
  ghost predicate Overlaps(s: State, e: Event, t: Token) {
    t in s.handOffs && !Over(s, t) && (e.Arms? || (e.Closes? && e.t != t))
  }

  /** A wait ends early without an answer only when hand-offs overlap. */
  lemma {:induction false} WokenUnansweredOnlyByOverlap(r: Run<State, Event>, n: nat, t: Token)
    requires IsRun(r, Init, Next) && n < |r.states| && t in r.states[n].handOffs && !Over(r.states[n], t)
    requires r.states[n].handOffs[t].wait.Disconnected? || r.states[n].handOffs[t].sender.Dropped?
    ensures exists i: nat :: i < n && Overlaps(r.states[i], r.events[i], t)
  {
    if n > 0 {
      var s, e, s' := r.states[n - 1], r.events[n - 1], r.states[n];
      assert Next(s, e, s');
      InvAlways(r, n - 1);
      if !Overlaps(s, e, t) {
        WokenUnansweredOnlyByOverlap(r, n - 1, t);
      }
    }
  }

  /** And then it does: the overlap drops the waiting hand-off's sender. */
  lemma OverlapWakes(r: Run<State, Event>, i: nat, t: Token)
    requires IsRun(r, Init, Next) && i < |r.events|
    requires Overlaps(r.states[i], r.events[i], t) && r.states[i].handOffs[t] == HandOff(InSlot, Waiting)
    ensures Next(r.states[i + 1], WakesDisconnected(t), WaitIs(r.states[i + 1], t, Disconnected))
  {
    InvAlways(r, i);
    assert Next(r.states[i], r.events[i], r.states[i + 1]);
  }

  /** Such a run: the second hand-off ends the first one's wait, with no answer made. */
  lemma SecondHandOffEndsFirst() returns (r: Run<State, Event>)
    ensures IsRun(r, Init, Next) && r.events == [Arms, Arms, WakesDisconnected(1)]
    ensures 1 in r.states[3].handOffs && r.states[3].handOffs[1].wait.Disconnected?
  {
    var first, second := HandOff(InSlot, Waiting), HandOff(InSlot, Waiting);
    var s0 := State(1, None, map[]);
    var s1 := State(2, Some(1), map[1 := first]);
    var s2 := State(3, Some(2), map[1 := first.(sender := Dropped), 2 := second]);
    var s3 := WaitIs(s2, 1, Disconnected);
    assert Next(s0, Arms, s1) && Next(s1, Arms, s2) && Next(s2, WakesDisconnected(1), s3);
    r := Run([s0, s1, s2, s3], [Arms, Arms, WakesDisconnected(1)]);
  }

  /** With hand-offs one after the other, as the platform listeners make them: a
      wait that ends before its deadline was answered, by its own token. */
  lemma EarlyEndMeansOwnAck(r: Run<State, Event>, n: nat, t: Token)
    requires IsRun(r, Init, Next) && n < |r.states| && t in r.states[n].handOffs
    requires forall i: nat :: i < n ==> !Overlaps(r.states[i], r.events[i], t)
    requires r.states[n].handOffs[t].wait.Answered? || r.states[n].handOffs[t].wait.Disconnected?
    ensures exists i: nat :: i < n && AckedAt(r, i, t)
  {
    if r.states[n].handOffs[t].wait.Disconnected? {
      WokenUnansweredOnlyByOverlap(r, n, t);
    } else {
      AnsweredOnlyByOwnAck(r, n, t);
    }
  }

  /** An answer with the token of the hand-off that waits releases it. */
  lemma AckReleases(r: Run<State, Event>, i: nat, t: Token) returns (q: Run<State, Event>)
    requires IsRun(r, Init, Next) && i < |r.states| && r.states[i].slot == Some(t)
    requires t in r.states[i].handOffs && r.states[i].handOffs[t].wait.Waiting?
    ensures IsRun(q, Anywhere, Next) && q.states[0] == r.states[i]
    ensures q.events == [Acks(t), Sends(t), WakesAnswered(t), Closes(t)]
    ensures t in q.states[3].handOffs && q.states[3].handOffs[t].wait.Answered?
    ensures Over(q.states[4], t) && q.states[4].slot.None?
  {
    InvAlways(r, i);
    var s := r.states[i];
    var s1 := s.(slot := None, handOffs := s.handOffs[t := HandOff(Taken, Waiting)]);
    var s2 := s1.(handOffs := s1.handOffs[t := HandOff(Sent, Waiting)]);
    var s3 := WaitIs(s2, t, Answered);
    var s4 := WaitIs(s3, t, Closed);
    assert Next(s, Acks(t), s1) && Next(s1, Sends(t), s2) && Next(s2, WakesAnswered(t), s3) && Next(s3, Closes(t), s4);
    q := Run([s, s1, s2, s3, s4], [Acks(t), Sends(t), WakesAnswered(t), Closes(t)]);
  }

  /** An answer with any other token changes nothing. */
  lemma OtherAckIgnored(s: State, s': State, t: Token)
    requires Next(s, Acks(t), s') && s.slot != Some(t)
    ensures s' == s
  {
  }

  /** Every hand-off has a token of its own, and arming it makes it the one that waits. */
  lemma ArmsFreshToken(r: Run<State, Event>, i: nat)
    requires IsRun(r, Init, Next) && i < |r.events| && r.events[i].Arms?
    ensures var t := r.states[i].next;
            && t !in r.states[i].handOffs && r.states[i + 1].slot == Some(t)
            && t in r.states[i + 1].handOffs && r.states[i + 1].handOffs[t].wait.Waiting?
  {
    InvAlways(r, i);
    assert Next(r.states[i], r.events[i], r.states[i + 1]);
  }
}
