/** Asking a person before a key signs: the core's one line of requests
    (rust-core/crates/ffi/src/approvals.rs) and the window's registry of prompts
    (client/src-tauri/src/observers.rs).

    A request joins the line, is handed to the approver when it reaches the
    front, is registered and shown, and waits for an answer. Closed connections,
    revokes and locks take waiting requests out of the line and cancel the one at
    the front; that cancel is a separate call, which can arrive before the
    request is registered or after it is over. */
module SignApprovals {
  import opened Wrappers
  import opened Runs

  type Id = nat

  const MAX_FORWARDED: nat := 64

  // ---------- the window's registry ----------

  /** `pending` maps a waiting prompt to whether it is the system agent's. */
  datatype Registry = Registry(pending: map<Id, bool>, early: set<Id>)

  /** The request is handed over: refused if cancelled before, registered if not. */
  function HandedOver(g: Registry, id: Id, system: bool): Registry {
    Registry(if id in g.early then g.pending else g.pending[id := system], {})
  }

  function Taken(g: Registry, id: Id): Registry {
    Registry(g.pending - {id}, g.early)
  }

  function CancelledAt(g: Registry, id: Id): Registry {
    if id in g.pending then Taken(g, id) else Registry(g.pending, g.early + {id})
  }

  /** One lock for both halves; each method is one section under it. */
  class Approver {
    var pending: map<Id, bool>
    var early: set<Id>

    function Value(): Registry
      reads this
    {
      Registry(pending, early)
    }

    constructor ()
      ensures Value() == Registry(map[], {})
    {
      pending, early := map[], {};
    }

    method HandOver(id: Id, system: bool) returns (registered: bool)
      modifies this
      ensures Value() == HandedOver(old(Value()), id, system)
      ensures registered <==> id !in old(early)
      ensures early == {} && pending == if registered then old(pending)[id := system] else old(pending)
    {
      registered := id !in early;
      early := {};
      if registered {
        pending := pending[id := system];
      }
    }

    /** `answer` and `withdraw`: whoever takes the prompt out sends the answer. */
    method Take(id: Id) returns (waiting: bool)
      modifies this`pending
      ensures Value() == Taken(old(Value()), id)
      ensures waiting <==> id in old(pending)
      ensures pending.Keys == old(pending).Keys - {id} && forall x :: x in pending ==> pending[x] == old(pending)[x]
    {
      waiting := id in pending;
      pending := pending - {id};
    }

    method Cancel(id: Id) returns (waiting: bool)
      modifies this
      ensures Value() == CancelledAt(old(Value()), id)
      ensures waiting <==> id in old(pending)
      ensures pending == old(pending) - {id} && early == old(early) + if waiting then {} else {id}
    {
      waiting := id in pending;
      if waiting {
        pending := pending - {id};
      } else {
        early := early + {id};
      }
    }

    /** The first half of `cancel_system`: the prompts to withdraw. */
    method SystemPrompts() returns (ids: set<Id>)
      ensures forall id :: id in ids <==> id in pending && pending[id]
    {
      ids := set id | id in pending && pending[id];
    }
  }

  // ---------- the core's line ----------

  datatype Waiting = Waiting(id: Id, system: bool)

  /** The line without the entries that fail `keep`, order kept. */
  function Retain(line: seq<Waiting>, keep: Waiting -> bool): (r: seq<Waiting>)
    ensures forall w :: w in r <==> w in line && keep(w)
    ensures line != [] && keep(line[0]) ==> r != [] && r[0] == line[0]
  {
    if line == [] then [] else (if keep(line[0]) then [line[0]] else []) + Retain(line[1..], keep)
  }

  /** It is the line's own order: entry by entry, from the front. */
  lemma {:induction false} RetainSplits(x: seq<Waiting>, y: seq<Waiting>, keep: Waiting -> bool)
    ensures Retain(x + y, keep) == Retain(x, keep) + Retain(y, keep)
  {
    if x == [] {
      assert x + y == y;
    } else {
      var head := if keep(x[0]) then [x[0]] else [];
      RetainSplits(x[1..], y, keep);
      assert (x + y)[1..] == x[1..] + y;
      assert Retain(x + y, keep) == head + Retain(x[1..] + y, keep);
      assert Retain(x, keep) == head + Retain(x[1..], keep);
      Regrouped(head, Retain(x[1..], keep), Retain(y, keep));
    }
  }

  lemma Regrouped(x: seq<Waiting>, y: seq<Waiting>, z: seq<Waiting>)
    ensures x + (y + z) == (x + y) + z
  {
  }

  lemma RetainOne(w: Waiting, keep: Waiting -> bool)
    ensures Retain([w], keep) == if keep(w) then [w] else []
  {
    assert [w][1..] == [];
  }

  function OtherThan(id: Id): Waiting -> bool {
    (w: Waiting) => w.id != id
  }

  predicate IsForwarded(w: Waiting) { !w.system }

  function Without(line: seq<Waiting>, id: Id): seq<Waiting> {
    Retain(line, OtherThan(id))
  }

  function Forwarded(line: seq<Waiting>): nat {
    |Retain(line, IsForwarded)|
  }

  /** `withdraw`: the front keeps its place (it is cancelled instead). */
  function Withdrawn(line: seq<Waiting>, id: Id): seq<Waiting> {
    if line != [] && line[0].id == id then line else Without(line, id)
  }

  /** `revoke_system`: the front keeps its place. */
  function RevokedLine(line: seq<Waiting>): seq<Waiting> {
    if line == [] then [] else [line[0]] + Retain(line[1..], IsForwarded)
  }

  /** `refuse_all`: only the front keeps its place. */
  function RefusedLine(line: seq<Waiting>): seq<Waiting> {
    if line == [] then [] else line[..1]
  }

  // ---------- the protocol ----------

  datatype Pc =
    | Setting            // the lock epoch is read; the vault is asked next
    | Joining            // the vault was open; the line is joined next
    | InLine
    | Handed             // at the front; registered next
    | Registered         // the window is told next
    | Shown              // waiting for the answer
    | Withdrawing        // timed out; withdrawn next
    | Returning(approved: bool) // answered; the next in line moves up after this
    | Over(approved: bool)

  /** `queue` holds the answers taken for the request and not yet sent to it;
      `sent` counts those sent. */
  datatype Request =
    Request(system: bool, listener: nat, locks: nat, pc: Pc, queue: seq<bool>, sent: nat, inbox: Option<bool>)

  /** `cancels` and `sweeps` are the ids for which a call of the approver's `cancel`
      or, from `cancel_system`, of its `withdraw` has been decided on. The call
      can come at any later time, and more than once. */
  datatype State = State(
    open: bool,
    line: seq<Waiting>,
    listener: nat,
    locks: nat,
    registry: Registry,
    requests: map<Id, Request>,
    cancels: set<Id>,
    sweeps: set<Id>)

  datatype Event =
    | Asks(id: Id, system: bool, listener: nat)
    | SeesVault(id: Id)
    | Joins(id: Id, gone: bool)
    | Proceeds(id: Id)
    | Registers(id: Id)
    | Emits(id: Id, ok: bool)
    | Receives(id: Id)
    | TimesOut(id: Id)
    | Withdraws(id: Id)
    | Returns(id: Id)
    | UserAnswers(id: Id, approved: bool)
    | Sends(id: Id)
    | ConnectionCloses(id: Id)
    | RevokesSystem
    | VaultLocks
    | VaultUnlocks
    | RefusesAll
    | CancelCalls(id: Id)
    | SweepsSystem(ids: set<Id>)
    | WithdrawCalls(id: Id)

  ghost predicate Init(s: State) {
    s == State(s.open, [], s.listener, s.locks, Registry(map[], {}), map[], {}, {})
  }

  function Move(s: State, id: Id, pc: Pc): State
    requires id in s.requests
  {
    s.(requests := s.requests[id := s.requests[id].(pc := pc)])
  }

  ghost predicate At(s: State, id: Id, pc: Pc) {
    id in s.requests && s.requests[id].pc == pc
  }

  predicate AtFront(line: seq<Waiting>, id: Id) {
    line != [] && line[0].id == id
  }

  predicate Listed(line: seq<Waiting>, id: Id) {
    exists w :: w in line && w.id == id
  }

  ghost predicate Admitted(s: State, id: Id, gone: bool)
    requires id in s.requests
  {
    var q := s.requests[id];
    && q.locks == s.locks && !gone
    && (if q.system then q.listener == s.listener else Forwarded(s.line) < MAX_FORWARDED)
  }

  /** The request's own way to the front of the line, and out of it. */
  ghost predicate LineStep(s: State, e: Event, s': State) {
    match e
    case Asks(id, system, listener) =>
      && id !in s.requests && listener <= s.listener
      && s' == s.(requests := s.requests[id := Request(system, listener, s.locks, Setting, [], 0, None)])
    case SeesVault(id) => At(s, id, Setting) && s' == Move(s, id, if s.open then Joining else Over(false))
    case Joins(id, gone) =>
      && At(s, id, Joining)
      && s' == if Admitted(s, id, gone)
               then Move(s, id, InLine).(line := s.line + [Waiting(id, s.requests[id].system)])
               else Move(s, id, Over(false))
    case Proceeds(id) =>
      && At(s, id, InLine) && (AtFront(s.line, id) || !Listed(s.line, id))
      && s' == Move(s, id, if AtFront(s.line, id) then Handed else Over(false))
    case Returns(id) =>
      && id in s.requests && s.requests[id].pc.Returning?
      && s' == Move(s, id, Over(s.requests[id].pc.approved)).(line := Without(s.line, id))
    case _ => false
  }

  /** The prompt is taken out of the registry, if it is there, to be answered. */
  function Answered(s: State, id: Id, approved: bool): State {
    if id in s.registry.pending && id in s.requests then
      var q := s.requests[id];
      s.(registry := Taken(s.registry, id), requests := s.requests[id := q.(queue := q.queue + [approved])])
    else s.(registry := Taken(s.registry, id))
  }

  /** What the request does at the window while it has its turn. */
  ghost predicate PromptStep(s: State, e: Event, s': State) {
    match e
    case Registers(id) =>
      && At(s, id, Handed)
      && s' == Move(s, id, if id in s.registry.early then Returning(false) else Registered)
               .(registry := HandedOver(s.registry, id, s.requests[id].system))
    case Emits(id, ok) =>
      && At(s, id, Registered)
      && s' == if ok then Move(s, id, Shown) else Move(s, id, Returning(false)).(registry := Taken(s.registry, id))
    case Receives(id) =>
      && At(s, id, Shown) && s.requests[id].inbox.Some?
      && s' == Move(s, id, Returning(s.requests[id].inbox.value))
    case TimesOut(id) => At(s, id, Shown) && s' == Move(s, id, Withdrawing)
    case Withdraws(id) => At(s, id, Withdrawing) && s' == Answered(Move(s, id, Returning(false)), id, false)
    case _ => false
  }

  /** Answers, and the calls that take a prompt back. */
  ghost predicate AnswerStep(s: State, e: Event, s': State) {
    match e
    case UserAnswers(id, approved) => s' == Answered(s, id, approved)
    case Sends(id) =>
      && id in s.requests && s.requests[id].queue != []
      && var q := s.requests[id];
      s' == s.(requests := s.requests[id := q.(queue := q.queue[1..], sent := q.sent + 1, inbox := Some(q.queue[0]))])
    case CancelCalls(id) =>
      && id in s.cancels
      && s' == if id in s.registry.pending then Answered(s, id, false) else s.(registry := CancelledAt(s.registry, id))
    case SweepsSystem(ids) =>
      && (forall id :: id in ids <==> id in s.registry.pending && s.registry.pending[id])
      && s' == s.(sweeps := s.sweeps + ids)
    case WithdrawCalls(id) => id in s.sweeps && s' == Answered(s, id, false)
    case _ => false
  }

  /** Closed connections, revokes and locks, at the line. */
  ghost predicate ControlStep(s: State, e: Event, s': State) {
    match e
    case ConnectionCloses(id) =>
      s' == s.(line := Withdrawn(s.line, id), cancels := s.cancels + if AtFront(s.line, id) then {id} else {})
    case RevokesSystem =>
      s' == s.(line := RevokedLine(s.line), listener := s.listener + 1,
               cancels := s.cancels + if s.line != [] && s.line[0].system then {s.line[0].id} else {})
    case VaultLocks => s' == s.(open := false)
    case VaultUnlocks => s' == s.(open := true)
    case RefusesAll =>
      s' == s.(line := RefusedLine(s.line), locks := s.locks + 1,
               cancels := s.cancels + if s.line != [] then {s.line[0].id} else {})
    case _ => false
  }

  ghost predicate Next(s: State, e: Event, s': State) {
    LineStep(s, e, s') || PromptStep(s, e, s') || AnswerStep(s, e, s') || ControlStep(s, e, s')
  }

  // ---------- invariants of every run ----------

  /** From being handed over until its turn ends. */
  predicate HasTurn(pc: Pc) {
    pc.Handed? || pc.Registered? || pc.Shown? || pc.Withdrawing? || pc.Returning?
  }

  /** The prompt has not been registered yet. */
  predicate Unregistered(pc: Pc) {
    pc.Setting? || pc.Joining? || pc.InLine? || pc.Handed?
  }

  /** How a request goes on. */
  predicate GoesOn(pc: Pc, pc': Pc) {
    pc' == pc ||
    match pc
    case Setting => pc'.Joining? || pc' == Over(false)
    case Joining => pc'.InLine? || pc' == Over(false)
    case InLine => pc'.Handed? || pc' == Over(false)
    case Handed => pc'.Registered? || pc' == Returning(false)
    case Registered => pc'.Shown? || pc' == Returning(false)
    case Shown => pc'.Withdrawing? || pc'.Returning?
    case Withdrawing => pc' == Returning(false)
    case Returning(approved) => pc' == Over(approved)
    case Over(_) => false
  }

  ghost predicate Moves(s: State, s': State, x: Id)
    requires x in s.requests
  {
    && x in s'.requests && GoesOn(s.requests[x].pc, s'.requests[x].pc)
    && s'.requests[x].locks == s.requests[x].locks && s.locks <= s'.locks
    && s'.requests[x].listener == s.requests[x].listener && s.listener <= s'.listener
    && s'.requests[x].system == s.requests[x].system
  }

  lemma MovedInLine(s: State, e: Event, s': State, x: Id)
    requires LineStep(s, e, s') && x in s.requests
    ensures Moves(s, s', x)
  {
  }

  lemma MovedAtWindow(s: State, e: Event, s': State, x: Id)
    requires PromptStep(s, e, s') && x in s.requests
    ensures Moves(s, s', x)
  {
  }

  lemma MovedByAnswer(s: State, e: Event, s': State, x: Id)
    requires (AnswerStep(s, e, s') || ControlStep(s, e, s')) && x in s.requests
    ensures Moves(s, s', x) && s'.requests[x].pc == s.requests[x].pc
  {
  }

  lemma Moved(s: State, e: Event, s': State, x: Id)
    requires Next(s, e, s') && x in s.requests
    ensures Moves(s, s', x)
  {
    if LineStep(s, e, s') {
      MovedInLine(s, e, s', x);
    } else if PromptStep(s, e, s') {
      MovedAtWindow(s, e, s', x);
    } else {
      MovedByAnswer(s, e, s', x);
    }
  }

  /** The request with the turn is at the front, and only it can be cancelled. */
  ghost predicate InTurn(s: State, id: Id) {
    && (id in s.cancels || Listed(s.line, id) ==> id in s.requests)
    && (id in s.requests ==>
          var pc := s.requests[id].pc;
          && (Listed(s.line, id) ==> pc.InLine? || HasTurn(pc))
          && (HasTurn(pc) ==> AtFront(s.line, id))
          && (id in s.cancels ==> AtFront(s.line, id) || pc.Over?))
  }

  /** A registered prompt is answered at most once, and only after it is taken out. */
  ghost predicate AnsweredOnce(s: State, id: Id) {
    && (id in s.registry.pending ==> id in s.requests && id !in s.registry.early)
    && (id in s.requests ==>
          var q := s.requests[id];
          && (id in s.registry.pending ==> q.pc.Registered? || q.pc.Shown? || q.pc.Withdrawing?)
          && |q.queue| + q.sent + (if id in s.registry.pending then 1 else 0) <= (if Unregistered(q.pc) then 0 else 1)
          && (q.inbox.Some? ==> q.sent > 0))
  }

  /** A withdrawal names a prompt that was registered; epochs read are never ahead. */
  ghost predicate Dated(s: State, id: Id) {
    && (id in s.sweeps ==> id in s.requests && !Unregistered(s.requests[id].pc))
    && (id in s.requests ==> s.requests[id].locks <= s.locks)
  }

  ghost predicate Inv(s: State) {
    forall id: Id :: InTurn(s, id) && AnsweredOnce(s, id) && Dated(s, id)
  }

  /** What the changes to the line other than joining do to who is in it. */
  ghost predicate Shortened(line: seq<Waiting>, line': seq<Waiting>, id: Id) {
    && (Listed(line', id) ==> Listed(line, id))
    && (line != [] ==> line' != [] && line'[0] == line[0])
    && (line == [] ==> line' == [])
  }

  lemma LineShortened(line: seq<Waiting>, x: Id, id: Id)
    ensures Shortened(line, Withdrawn(line, x), id)
    ensures Shortened(line, RevokedLine(line), id)
    ensures Shortened(line, RefusedLine(line), id)
  {
    if line != [] && Listed(RevokedLine(line), id) {
      var w :| w in RevokedLine(line) && w.id == id;
      assert w == line[0] || w in line[1..];
    }
  }

  lemma LineReturned(line: seq<Waiting>, x: Id, id: Id)
    requires AtFront(line, x)
    ensures Listed(Without(line, x), id) <==> Listed(line, id) && id != x
  {
    if Listed(line, id) && id != x {
      var w :| w in line && w.id == id;
      assert w in Without(line, x);
    }
  }

  lemma ReturnInTurn(s: State, e: Event, s': State, id: Id)
    requires e.Returns? && LineStep(s, e, s') && InTurn(s, id) && InTurn(s, e.id)
    ensures InTurn(s', id)
  {
    LineReturned(s.line, e.id, id);
  }

  lemma JoinInTurn(s: State, e: Event, s': State, id: Id)
    requires e.Joins? && LineStep(s, e, s') && InTurn(s, id)
    ensures InTurn(s', id)
  {
    assert Listed(s'.line, id) ==> Listed(s.line, id) || id == e.id;
    assert AtFront(s.line, id) ==> AtFront(s'.line, id);
  }

  lemma LineStepInTurn(s: State, e: Event, s': State, id: Id)
    requires LineStep(s, e, s') && InTurn(s, id) && InTurn(s, e.id)
    ensures InTurn(s', id)
  {
    if e.Returns? {
      ReturnInTurn(s, e, s', id);
    } else if e.Joins? {
      JoinInTurn(s, e, s', id);
    } else {
      assert s'.line == s.line && s'.cancels == s.cancels;
    }
  }

  lemma PromptStepInTurn(s: State, e: Event, s': State, id: Id)
    requires PromptStep(s, e, s') && InTurn(s, id)
    ensures InTurn(s', id)
  {
    assert s'.line == s.line && s'.cancels == s.cancels;
  }

  lemma AnswerStepInTurn(s: State, e: Event, s': State, id: Id)
    requires AnswerStep(s, e, s') && InTurn(s, id)
    ensures InTurn(s', id)
  {
    assert s'.line == s.line;
  }

  lemma ControlStepInTurn(s: State, e: Event, s': State, id: Id)
    requires ControlStep(s, e, s') && InTurn(s, id)
    ensures InTurn(s', id)
  {
    LineShortened(s.line, if e.ConnectionCloses? then e.id else 0, id);
    if AtFront(s.line, id) {
      assert s.line[0] in s.line;
    }
  }

  lemma LineStepAnswered(s: State, e: Event, s': State, id: Id)
    requires (LineStep(s, e, s') || ControlStep(s, e, s')) && AnsweredOnce(s, id)
    ensures AnsweredOnce(s', id)
  {
  }

  lemma PromptStepAnswered(s: State, e: Event, s': State, id: Id)
    requires PromptStep(s, e, s') && AnsweredOnce(s, id)
    ensures AnsweredOnce(s', id)
  {
  }

  lemma AnswerStepAnswered(s: State, e: Event, s': State, id: Id)
    requires AnswerStep(s, e, s') && AnsweredOnce(s, id)
    ensures AnsweredOnce(s', id)
  {
  }

  lemma SweptWasPending(s: State, e: Event, s': State, id: Id)
    requires Next(s, e, s') && id in s'.sweeps && id !in s.sweeps
    ensures id in s.registry.pending && s'.requests == s.requests
  {
  }

  lemma NewRequestIsDated(s: State, e: Event, s': State, id: Id)
    requires Next(s, e, s') && id in s'.requests && id !in s.requests
    ensures s'.requests[id].locks == s.locks == s'.locks
  {
  }

  lemma DatedKept(s: State, e: Event, s': State, id: Id)
    requires Next(s, e, s') && Dated(s, id) && AnsweredOnce(s, id)
    ensures Dated(s', id)
  {
    if id in s.requests {
      Moved(s, e, s', id);
    } else if id in s'.requests {
      NewRequestIsDated(s, e, s', id);
    }
    if id in s'.sweeps && id !in s.sweeps {
      SweptWasPending(s, e, s', id);
    }
  }

  lemma InvKept(s: State, e: Event, s': State)
    requires Inv(s) && Next(s, e, s')
    ensures Inv(s')
  {
    forall id: Id
      ensures InTurn(s', id) && AnsweredOnce(s', id) && Dated(s', id)
    {
      assert InTurn(s, id) && AnsweredOnce(s, id) && Dated(s, id);
      DatedKept(s, e, s', id);
      if LineStep(s, e, s') {
        assert InTurn(s, e.id);
        LineStepInTurn(s, e, s', id);
        LineStepAnswered(s, e, s', id);
      } else if PromptStep(s, e, s') {
        PromptStepInTurn(s, e, s', id);
        PromptStepAnswered(s, e, s', id);
      } else if AnswerStep(s, e, s') {
        AnswerStepInTurn(s, e, s', id);
        AnswerStepAnswered(s, e, s', id);
      } else {
        ControlStepInTurn(s, e, s', id);
        LineStepAnswered(s, e, s', id);
      }
    }
  }

  lemma InvAlways(r: Run<State, Event>, i: nat)
    requires IsRun(r, Init, Next) && i < |r.states|
    ensures Inv(r.states[i])
  {
    forall s, e, s' | Inv(s) && Next(s, e, s')
      ensures Inv(s')
    {
      InvKept(s, e, s');
    }
    Kept(r, Next, Inv, 0, i);
  }

  /** One prompt at a time: whatever is registered is the front of the line, and is not
      also remembered as cancelled. */
  lemma OnePromptAtATime(r: Run<State, Event>, i: nat, x: Id, y: Id)
    requires IsRun(r, Init, Next) && i < |r.states|
    requires x in r.states[i].registry.pending
    ensures y in r.states[i].registry.pending ==> y == x
    ensures AtFront(r.states[i].line, x) && x !in r.states[i].registry.early
  {
    InvAlways(r, i);
    assert InTurn(r.states[i], x) && AnsweredOnce(r.states[i], x);
    assert InTurn(r.states[i], y) && AnsweredOnce(r.states[i], y);
  }

  /** At every moment a request has been sent at most one answer, counting one on its way. */
  lemma OneAnswerEach(r: Run<State, Event>, i: nat, x: Id)
    requires IsRun(r, Init, Next) && i < |r.states| && x in r.states[i].requests
    ensures var q := r.states[i].requests[x]; |q.queue| + q.sent <= 1
  {
    InvAlways(r, i);
    assert AnsweredOnce(r.states[i], x);
  }

  // ---------- a request cancelled before it is registered is never shown ----------

  ghost predicate Sound(s: State, e: Event, s': State) {
    Inv(s) && Next(s, e, s')
  }

  ghost predicate Refused(s: State, x: Id) {
    && x in s.requests
    && var pc := s.requests[x].pc;
       || ((pc.InLine? || pc.Handed?) && AtFront(s.line, x) && x in s.registry.early)
       || pc == Returning(false) || pc == Over(false)
  }

  lemma RefusedInLine(s: State, e: Event, s': State, x: Id)
    requires LineStep(s, e, s') && Refused(s, x) && InTurn(s, x) && InTurn(s, e.id)
    ensures Refused(s', x)
  {
    if e.Joins? {
      assert AtFront(s.line, x) ==> AtFront(s'.line, x);
    }
  }

  lemma RefusedAtWindow(s: State, e: Event, s': State, x: Id)
    requires PromptStep(s, e, s') && Refused(s, x) && InTurn(s, x) && InTurn(s, e.id)
    ensures Refused(s', x)
  {
  }

  lemma RefusedKept(s: State, e: Event, s': State, x: Id)
    requires Sound(s, e, s') && Refused(s, x)
    ensures Refused(s', x)
  {
    assert InTurn(s, x);
    if LineStep(s, e, s') {
      assert InTurn(s, e.id);
      RefusedInLine(s, e, s', x);
    } else if PromptStep(s, e, s') {
      assert InTurn(s, e.id);
      RefusedAtWindow(s, e, s', x);
    } else if ControlStep(s, e, s') {
      LineShortened(s.line, if e.ConnectionCloses? then e.id else 0, x);
    } else {
      assert s.registry.early <= s'.registry.early && s.line == s'.line;
    }
  }

  lemma RefusedSince(r: Run<State, Event>, a: nat, d: nat, x: Id)
    requires IsRun(r, Init, Next) && a <= d < |r.states| && Refused(r.states[a], x)
    ensures Refused(r.states[d], x)
  {
    forall i | 0 <= i < |r.events|
      ensures Sound(r.states[i], r.events[i], r.states[i + 1])
    {
      InvAlways(r, i);
    }
    forall s, e, s' | Refused(s, x) && Sound(s, e, s')
      ensures Refused(s', x)
    {
      RefusedKept(s, e, s', x);
    }
    Kept(r, Sound, (s: State) => Refused(s, x), a, d);
  }

  /** A cancel that arrives before its request is registered refuses it: it is never
      put on screen, and never approved. */
  lemma EarlyCancelRefusesUnseen(r: Run<State, Event>, i: nat, d: nat, x: Id)
    requires IsRun(r, Init, Next) && i < d < |r.states|
    requires r.events[i] == CancelCalls(x)
    requires x in r.states[i].requests && Unregistered(r.states[i].requests[x].pc)
    ensures Refused(r.states[d], x)
    ensures d < |r.events| ==> r.events[d] != Emits(x, true)
  {
    InvAlways(r, i);
    assert InTurn(r.states[i], x) && AnsweredOnce(r.states[i], x);
    assert Next(r.states[i], r.events[i], r.states[i + 1]);
    assert r.states[i].line[0] in r.states[i].line;
    RefusedSince(r, i + 1, d, x);
    if d < |r.events| {
      assert Next(r.states[d], r.events[d], r.states[d + 1]);
    }
  }

  // ---------- approved only by a yes that came first ----------

  /** The prompt is taken out unanswered: cancelled, withdrawn by a sweep, or withdrawn
      after a timeout. */
  predicate TakesBack(e: Event, x: Id) {
    e == CancelCalls(x) || e == WithdrawCalls(x) || e == Withdraws(x)
  }

  /** The request is not waiting for an answer and never will be again. */
  ghost predicate Gone(s: State, x: Id) {
    && x in s.requests && x !in s.registry.pending
    && (Unregistered(s.requests[x].pc) ==> Refused(s, x))
  }

  /** Only a registration puts a prompt into the registry. */
  lemma PendingFrom(s: State, e: Event, s': State, x: Id)
    requires Next(s, e, s') && x in s'.registry.pending && x !in s.registry.pending
    ensures e == Registers(x) && At(s, x, Handed) && x !in s.registry.early
  {
  }

  lemma GoneKept(s: State, e: Event, s': State, x: Id)
    requires Sound(s, e, s') && Gone(s, x)
    ensures Gone(s', x)
  {
    if x in s'.registry.pending {
      PendingFrom(s, e, s', x);
      assert InTurn(s, x);
    }
    if Refused(s, x) {
      RefusedKept(s, e, s', x);
    } else {
      Moved(s, e, s', x);
    }
  }

  lemma TakenBackIsGone(s: State, e: Event, s': State, x: Id)
    requires Sound(s, e, s') && TakesBack(e, x)
    ensures Gone(s', x)
  {
    assert InTurn(s, x) && AnsweredOnce(s, x) && Dated(s, x);
    if e.CancelCalls? && Unregistered(s.requests[x].pc) {
      assert s.line[0] in s.line;
    }
  }

  lemma GoneSince(r: Run<State, Event>, j: nat, d: nat, x: Id)
    requires IsRun(r, Init, Next) && j < d < |r.states| && TakesBack(r.events[j], x)
    ensures Gone(r.states[d], x)
  {
    forall i | 0 <= i < |r.events|
      ensures Sound(r.states[i], r.events[i], r.states[i + 1])
    {
      InvAlways(r, i);
    }
    TakenBackIsGone(r.states[j], r.events[j], r.states[j + 1], x);
    forall s, e, s' | Gone(s, x) && Sound(s, e, s')
      ensures Gone(s', x)
    {
      GoneKept(s, e, s', x);
    }
    Kept(r, Sound, (s: State) => Gone(s, x), j + 1, d);
  }

  /** A yes is somewhere on its way from the person to the core. */
  ghost predicate YesSeen(s: State, x: Id) {
    && x in s.requests
    && var q := s.requests[x];
       true in q.queue || q.inbox == Some(true) || q.pc == Returning(true) || q.pc == Over(true)
  }

  lemma NoYesFromLine(s: State, e: Event, s': State, x: Id)
    requires (LineStep(s, e, s') || ControlStep(s, e, s')) && YesSeen(s', x)
    ensures YesSeen(s, x)
  {
  }

  lemma NoYesFromWindow(s: State, e: Event, s': State, x: Id)
    requires PromptStep(s, e, s') && YesSeen(s', x)
    ensures YesSeen(s, x)
  {
  }

  lemma YesComesFromThePerson(s: State, e: Event, s': State, x: Id)
    requires Next(s, e, s') && !YesSeen(s, x) && YesSeen(s', x)
    ensures e == UserAnswers(x, true) && x in s.registry.pending
  {
    if LineStep(s, e, s') || ControlStep(s, e, s') {
      NoYesFromLine(s, e, s', x);
    } else if PromptStep(s, e, s') {
      NoYesFromWindow(s, e, s', x);
    }
  }

  ghost predicate YesTaken(r: Run<State, Event>, i: nat, x: Id)
    requires r.Shaped()
  {
    && i < |r.events| && r.events[i] == UserAnswers(x, true) && x in r.states[i].registry.pending
    && forall j :: 0 <= j < i ==> !TakesBack(r.events[j], x)
  }

  lemma NotTakenBackBefore(r: Run<State, Event>, i: nat, x: Id)
    requires IsRun(r, Init, Next) && i < |r.states| && x in r.states[i].registry.pending
    ensures forall j :: 0 <= j < i ==> !TakesBack(r.events[j], x)
  {
    forall j | 0 <= j < i
      ensures !TakesBack(r.events[j], x)
    {
      if TakesBack(r.events[j], x) {
        GoneSince(r, j, i, x);
      }
    }
  }

  /** A yes is on its way only if the person's answer took the prompt out of the registry,
      before it was taken out by any cancel or withdrawal. */
  lemma {:induction false} YesSeenOnlyIfTaken(r: Run<State, Event>, n: nat, x: Id)
    requires IsRun(r, Init, Next) && n < |r.states| && YesSeen(r.states[n], x)
    ensures exists i: nat :: i < n && YesTaken(r, i, x)
  {
    if n > 0 {
      if YesSeen(r.states[n - 1], x) {
        YesSeenOnlyIfTaken(r, n - 1, x);
      } else {
        assert Next(r.states[n - 1], r.events[n - 1], r.states[n]);
        YesComesFromThePerson(r.states[n - 1], r.events[n - 1], r.states[n], x);
        NotTakenBackBefore(r, n - 1, x);
        assert YesTaken(r, n - 1, x);
      }
    }
  }

  /** The request gives up on its answer: the wait timed out, or the window could not be
      told. */
  predicate GivesUp(e: Event, x: Id) {
    e == TimesOut(x) || e == Emits(x, false)
  }

  /** After a timeout the prompt can still be answered until it is withdrawn, which is a
      step of its own. */
  ghost predicate GaveUp(s: State, x: Id) {
    && x in s.requests
    && var pc := s.requests[x].pc; pc.Withdrawing? || pc == Returning(false) || pc == Over(false)
  }

  lemma GaveUpKept(s: State, e: Event, s': State, x: Id)
    requires GaveUp(s, x) && Next(s, e, s')
    ensures GaveUp(s', x)
  {
    Moved(s, e, s', x);
  }

  /** A request that gave up is refused, whatever answer was or is taken for it. */
  lemma GivingUpRefuses(r: Run<State, Event>, j: nat, d: nat, x: Id)
    requires IsRun(r, Init, Next) && j < d < |r.states| && GivesUp(r.events[j], x)
    ensures GaveUp(r.states[d], x)
  {
    assert Next(r.states[j], r.events[j], r.states[j + 1]);
    forall s, e, s' | GaveUp(s, x) && Next(s, e, s')
      ensures GaveUp(s', x)
    {
      GaveUpKept(s, e, s', x);
    }
    Kept(r, Next, (s: State) => GaveUp(s, x), j + 1, d);
  }

  ghost predicate Approved(s: State, x: Id) {
    x in s.requests && (s.requests[x].pc == Returning(true) || s.requests[x].pc == Over(true))
  }

  lemma ApprovedNeverGaveUp(r: Run<State, Event>, n: nat, x: Id)
    requires IsRun(r, Init, Next) && n < |r.states| && Approved(r.states[n], x)
    ensures forall j :: 0 <= j < n ==> !GivesUp(r.events[j], x)
  {
    forall j | 0 <= j < n
      ensures !GivesUp(r.events[j], x)
    {
      if GivesUp(r.events[j], x) {
        GivingUpRefuses(r, j, n, x);
      }
    }
  }

  /** A request is approved only if the person's yes took its prompt out of the registry
      before any cancel or withdrawal of it, and it never gave up: its wait did not time
      out, before that yes or after it. */
  lemma ApprovedOnlyByEarlierYes(r: Run<State, Event>, n: nat, x: Id)
    requires IsRun(r, Init, Next) && n < |r.states| && Approved(r.states[n], x)
    ensures exists i: nat :: i < n && YesTaken(r, i, x)
    ensures forall j :: 0 <= j < n ==> !GivesUp(r.events[j], x)
  {
    YesSeenOnlyIfTaken(r, n, x);
    ApprovedNeverGaveUp(r, n, x);
  }

  /** The yes that took the prompt out is the only answer there is, and still wanted. */
  ghost predicate YesStands(s: State, x: Id) {
    && x in s.requests && x !in s.registry.pending
    && var q := s.requests[x];
       && (q.pc.Registered? || q.pc.Shown? || q.pc == Returning(true) || q.pc == Over(true))
       && (q.queue == [] || q.queue == [true]) && q.inbox != Some(false)
  }

  lemma YesStandsInLine(s: State, e: Event, s': State, x: Id)
    requires YesStands(s, x) && (LineStep(s, e, s') || ControlStep(s, e, s'))
    ensures YesStands(s', x)
  {
  }

  lemma YesStandsAtWindow(s: State, e: Event, s': State, x: Id)
    requires YesStands(s, x) && PromptStep(s, e, s') && !GivesUp(e, x)
    ensures YesStands(s', x)
  {
  }

  lemma YesStandsAnswered(s: State, e: Event, s': State, x: Id)
    requires YesStands(s, x) && AnswerStep(s, e, s')
    ensures YesStands(s', x)
  {
  }

  lemma YesStandsKept(s: State, e: Event, s': State, x: Id)
    requires YesStands(s, x) && Next(s, e, s') && !GivesUp(e, x)
    ensures YesStands(s', x)
  {
    if LineStep(s, e, s') || ControlStep(s, e, s') {
      YesStandsInLine(s, e, s', x);
    } else if PromptStep(s, e, s') {
      YesStandsAtWindow(s, e, s', x);
    } else {
      YesStandsAnswered(s, e, s', x);
    }
  }

  ghost predicate Waits(s: State, x: Id) {
    x in s.requests ==> !s.requests[x].pc.Withdrawing?
  }

  lemma WaitsKept(s: State, e: Event, s': State, x: Id)
    requires Waits(s, x) && Next(s, e, s') && e != TimesOut(x)
    ensures Waits(s', x)
  {
    if LineStep(s, e, s') {
    } else if PromptStep(s, e, s') {
    } else if x in s.requests {
      MovedByAnswer(s, e, s', x);
    }
  }

  lemma YesStandsOnceTaken(r: Run<State, Event>, i: nat, x: Id)
    requires IsRun(r, Init, Next) && i < |r.events|
    requires r.events[i] == UserAnswers(x, true) && x in r.states[i].registry.pending
    requires forall j :: 0 <= j < i ==> r.events[j] != TimesOut(x)
    ensures YesStands(r.states[i + 1], x)
  {
    var step := (s: State, e: Event, s': State) => Next(s, e, s') && e != TimesOut(x);
    forall s, e, s' | Waits(s, x) && step(s, e, s')
      ensures Waits(s', x)
    {
      WaitsKept(s, e, s', x);
    }
    Kept(r, step, (s: State) => Waits(s, x), 0, i);
    InvAlways(r, i);
    assert Waits(r.states[i], x) && AnsweredOnce(r.states[i], x);
    assert Next(r.states[i], r.events[i], r.states[i + 1]);
  }

  lemma YesStandsSince(r: Run<State, Event>, i: nat, n: nat, x: Id)
    requires IsRun(r, Init, Next) && i < n < |r.states|
    requires r.events[i] == UserAnswers(x, true) && x in r.states[i].registry.pending
    requires forall j :: 0 <= j < n ==> !GivesUp(r.events[j], x)
    ensures YesStands(r.states[n], x)
  {
    YesStandsOnceTaken(r, i, x);
    var step := (s: State, e: Event, s': State) => Next(s, e, s') && !GivesUp(e, x);
    forall s, e, s' | YesStands(s, x) && step(s, e, s')
      ensures YesStands(s', x)
    {
      YesStandsKept(s, e, s', x);
    }
    Kept(r, step, (s: State) => YesStands(s, x), i + 1, n);
  }

  /** A yes that took the prompt out approves the request exactly when the request gives up
      neither before nor after: its wait does not time out and the window was told. */
  lemma TakenYesApprovesIff(r: Run<State, Event>, i: nat, n: nat, x: Id)
    requires IsRun(r, Init, Next) && i < n < |r.states|
    requires r.events[i] == UserAnswers(x, true) && x in r.states[i].registry.pending
    requires x in r.states[n].requests && r.states[n].requests[x].pc.Over?
    ensures r.states[n].requests[x].pc == Over(true) <==> forall j :: 0 <= j < n ==> !GivesUp(r.events[j], x)
  {
    if r.states[n].requests[x].pc == Over(true) {
      ApprovedNeverGaveUp(r, n, x);
    }
    if forall j :: 0 <= j < n ==> !GivesUp(r.events[j], x) {
      YesStandsSince(r, i, n, x);
    }
  }

  // ---------- nothing asked before a lock is shown after it ----------

  /** The line is closed to the request: it set out before a lock, or its listener was
      revoked since. */
  ghost predicate Outdated(s: State, x: Id)
    requires x in s.requests
  {
    s.requests[x].locks < s.locks || (s.requests[x].system && s.requests[x].listener < s.listener)
  }

  /** The request is out of the line and cannot get into it any more. */
  ghost predicate LeftBehind(s: State, x: Id) {
    && x in s.requests
    && var pc := s.requests[x].pc;
       ((pc.Setting? || pc.Joining?) && Outdated(s, x)) || (pc.InLine? && !Listed(s.line, x)) || pc.Over?
  }

  lemma LeftBehindKept(s: State, e: Event, s': State, x: Id)
    requires Sound(s, e, s') && LeftBehind(s, x)
    ensures LeftBehind(s', x)
  {
    Moved(s, e, s', x);
    NotListedAgain(s, e, s', x);
  }

  lemma NotListedByLine(s: State, e: Event, s': State, x: Id)
    requires LineStep(s, e, s') && InTurn(s, e.id) && LeftBehind(s, x)
    ensures x in s'.requests && !s'.requests[x].pc.Handed?
    ensures s'.requests[x].pc.InLine? ==> s.requests[x].pc.InLine? && !Listed(s'.line, x)
  {
    if e.Returns? {
      LineReturned(s.line, e.id, x);
    } else if e.Joins? {
      assert x == e.id || (Listed(s'.line, x) ==> Listed(s.line, x));
    }
  }

  lemma NotListedByControl(s: State, e: Event, s': State, x: Id)
    requires ControlStep(s, e, s')
    ensures Listed(s'.line, x) ==> Listed(s.line, x)
  {
    if e.ConnectionCloses? {
      LineShortened(s.line, e.id, x);
    } else {
      LineShortened(s.line, 0, x);
    }
  }

  lemma NotListedAgain(s: State, e: Event, s': State, x: Id)
    requires Sound(s, e, s') && LeftBehind(s, x)
    ensures x in s'.requests && !s'.requests[x].pc.Handed?
    ensures s'.requests[x].pc.InLine? ==> s.requests[x].pc.InLine? && !Listed(s'.line, x)
  {
    if LineStep(s, e, s') {
      assert InTurn(s, e.id);
      NotListedByLine(s, e, s', x);
    } else {
      Moved(s, e, s', x);
      if ControlStep(s, e, s') {
        NotListedByControl(s, e, s', x);
      }
    }
  }

  lemma LeftBehindSince(r: Run<State, Event>, a: nat, d: nat, x: Id)
    requires IsRun(r, Init, Next) && a <= d < |r.states| && LeftBehind(r.states[a], x)
    ensures LeftBehind(r.states[d], x)
  {
    forall i | 0 <= i < |r.events|
      ensures Sound(r.states[i], r.events[i], r.states[i + 1])
    {
      InvAlways(r, i);
    }
    forall s, e, s' | LeftBehind(s, x) && Sound(s, e, s')
      ensures LeftBehind(s', x)
    {
      LeftBehindKept(s, e, s', x);
    }
    Kept(r, Sound, (s: State) => LeftBehind(s, x), a, d);
  }

  /** The request has been shown, or refused unshown: it is not shown again. */
  predicate PastShowing(pc: Pc) {
    pc.Shown? || pc.Withdrawing? || pc.Returning? || pc.Over?
  }

  /** Once a lock's `refuse_all` has swept the line (`k`) and the cancel it owes the
      request at the front has been made (`m`), a request from before it is put
      on screen only if it stood registered, with the window not yet told, when
      that cancel arrived. */
  lemma OldRequestNotShownAfterLock(r: Run<State, Event>, k: nat, m: nat, d: nat, x: Id)
    requires IsRun(r, Init, Next) && k < m < d < |r.events|
    requires r.events[k] == RefusesAll
    requires r.states[k].line != [] ==> r.events[m] == CancelCalls(r.states[k].line[0].id)
    requires x in r.states[k].requests
    requires !(AtFront(r.states[k].line, x) && x in r.states[m].requests && r.states[m].requests[x].pc.Registered?)
    ensures r.events[d] != Emits(x, true)
  {
    InvAlways(r, k);
    assert InTurn(r.states[k], x) && Dated(r.states[k], x);
    assert Next(r.states[k], r.events[k], r.states[k + 1]) && Next(r.states[d], r.events[d], r.states[d + 1]);
    if AtFront(r.states[k].line, x) {
      FrontNotShownAgain(r, k, m, d, x);
    } else {
      NotFrontNotShown(r, k, d, x);
    }
  }

  lemma NotFrontNotShown(r: Run<State, Event>, k: nat, d: nat, x: Id)
    requires IsRun(r, Init, Next) && k < d < |r.states|
    requires r.events[k] == RefusesAll && x in r.states[k].requests && !AtFront(r.states[k].line, x)
    ensures x in r.states[d].requests && !r.states[d].requests[x].pc.Registered?
  {
    InvAlways(r, k);
    assert InTurn(r.states[k], x) && Dated(r.states[k], x) && Next(r.states[k], r.events[k], r.states[k + 1]);
    assert !Listed(r.states[k + 1].line, x);
    LeftBehindSince(r, k + 1, d, x);
  }

  /** No request's listener is ahead, and an entry of the line says whose request it is. */
  ghost predicate Labelled(s: State, x: Id) {
    && (x in s.requests ==> s.requests[x].listener <= s.listener)
    && forall w :: w in s.line && w.id == x ==> x in s.requests && w.system == s.requests[x].system
  }

  lemma LineGrowsByJoining(s: State, e: Event, s': State, w: Waiting)
    requires Next(s, e, s') && w in s'.line && w !in s.line
    ensures e.Joins? && w.id == e.id && w.id in s.requests && w.system == s.requests[w.id].system
  {
    RevokeClearsSystem(s.line, w);
  }

  lemma LabelledKept(s: State, e: Event, s': State, x: Id)
    requires Next(s, e, s') && Labelled(s, x)
    ensures Labelled(s', x)
  {
    if x in s.requests {
      Moved(s, e, s', x);
    } else {
      NewRequestListens(s, e, s', x);
    }
    forall w | w in s'.line && w.id == x
      ensures x in s'.requests && w.system == s'.requests[x].system
    {
      if w !in s.line {
        LineGrowsByJoining(s, e, s', w);
      }
    }
  }

  lemma NewRequestListens(s: State, e: Event, s': State, x: Id)
    requires Next(s, e, s') && x !in s.requests
    ensures x in s'.requests ==> s'.requests[x].listener <= s'.listener
  {
  }

  lemma LabelledAlways(r: Run<State, Event>, i: nat, x: Id)
    requires IsRun(r, Init, Next) && i < |r.states|
    ensures Labelled(r.states[i], x)
  {
    forall s, e, s' | Labelled(s, x) && Next(s, e, s')
      ensures Labelled(s', x)
    {
      LabelledKept(s, e, s', x);
    }
    Kept(r, Next, (s: State) => Labelled(s, x), 0, i);
  }

  /** What a revoke does to the line: the system agent's requests behind the front leave it,
      forwarded ones stay. */
  lemma RevokeClearsSystem(line: seq<Waiting>, w: Waiting)
    ensures w in RevokedLine(line) <==> w in line && (!w.system || w == line[0])
  {
    if line != [] {
      assert w in line <==> w == line[0] || w in line[1..];
    }
  }

  /** Once the system agent is revoked, no request of the listeners until then is registered
      any more, other than the one that was at the front. */
  lemma RevokedNotShown(r: Run<State, Event>, k: nat, d: nat, x: Id)
    requires IsRun(r, Init, Next) && k < d < |r.states| && r.events[k] == RevokesSystem
    requires x in r.states[k].requests && r.states[k].requests[x].system && !AtFront(r.states[k].line, x)
    ensures x in r.states[d].requests && !r.states[d].requests[x].pc.Registered?
  {
    InvAlways(r, k);
    LabelledAlways(r, k, x);
    var s, s' := r.states[k], r.states[k + 1];
    assert InTurn(s, x) && Next(s, r.events[k], s');
    forall w | w in s'.line
      ensures w.id != x
    {
      RevokeClearsSystem(s.line, w);
    }
    LeftBehindSince(r, k + 1, d, x);
  }

  /** A forwarded request in the line is still there after a revoke. */
  lemma RevokeKeepsForwarded(s: State, s': State, w: Waiting)
    requires Next(s, RevokesSystem, s') && w in s.line && !w.system
    ensures w in s'.line && s'.requests == s.requests
  {
    RevokeClearsSystem(s.line, w);
  }

  /** A request waiting behind the front whose connection ends is never registered. */
  lemma ClosedNotShown(r: Run<State, Event>, k: nat, d: nat, x: Id)
    requires IsRun(r, Init, Next) && k < d < |r.states| && r.events[k] == ConnectionCloses(x)
    requires At(r.states[k], x, InLine) && !AtFront(r.states[k].line, x)
    ensures x in r.states[d].requests && !r.states[d].requests[x].pc.Registered?
  {
    assert Next(r.states[k], r.events[k], r.states[k + 1]);
    LeftBehindSince(r, k + 1, d, x);
  }

  /** ... and the others stay in the line. */
  lemma CloseKeepsOthers(s: State, s': State, x: Id, w: Waiting)
    requires Next(s, ConnectionCloses(x), s') && w in s.line && w.id != x
    ensures w in s'.line && s'.requests == s.requests
  {
  }

  /** Which cancels are decided on: of the request at the front, by a lock, by a revoke if
      it is the system agent's, and by the end of its own connection. */
  lemma CancelDecidedIff(s: State, e: Event, s': State, x: Id)
    requires ControlStep(s, e, s')
    ensures x in s'.cancels <==>
            || x in s.cancels
            || (&& AtFront(s.line, x)
                && (e.RefusesAll? || (e.RevokesSystem? && s.line[0].system) || e == ConnectionCloses(x)))
  {
  }

  /** A cancel that finds the prompt refuses it and leaves nothing behind; one that does not
      is kept for the registration. */
  lemma CancelRefusesOrKeeps(s: State, s': State, x: Id)
    requires Next(s, CancelCalls(x), s') && AnsweredOnce(s, x)
    ensures x in s.registry.pending ==>
              && x !in s'.registry.pending && s'.registry.early == s.registry.early
              && x in s'.requests && s'.requests[x].queue == s.requests[x].queue + [false]
    ensures x !in s.registry.pending ==>
              && s'.registry == Registry(s.registry.pending, s.registry.early + {x}) && s'.requests == s.requests
  {
  }

  // ---------- who is let into the line ----------

  lemma {:induction false} LocksMoveAtRefusals(r: Run<State, Event>, a: nat, b: nat)
    requires IsRun(r, Init, Next) && a <= b < |r.states|
    ensures r.states[a].locks <= r.states[b].locks
    ensures r.states[a].locks == r.states[b].locks <==> forall i :: a <= i < b ==> !r.events[i].RefusesAll?
    decreases b
  {
    if a < b {
      LocksMoveAtRefusals(r, a, b - 1);
      assert Next(r.states[b - 1], r.events[b - 1], r.states[b]);
      CountersStep(r.states[b - 1], r.events[b - 1], r.states[b]);
    }
  }

  lemma {:induction false} ListenerMovesAtRevokes(r: Run<State, Event>, a: nat, b: nat)
    requires IsRun(r, Init, Next) && a <= b < |r.states|
    ensures r.states[a].listener <= r.states[b].listener
    ensures r.states[a].listener == r.states[b].listener <==> forall i :: a <= i < b ==> !r.events[i].RevokesSystem?
    decreases b
  {
    if a < b {
      ListenerMovesAtRevokes(r, a, b - 1);
      assert Next(r.states[b - 1], r.events[b - 1], r.states[b]);
      CountersStep(r.states[b - 1], r.events[b - 1], r.states[b]);
    }
  }

  lemma CountersStep(s: State, e: Event, s': State)
    requires Next(s, e, s')
    ensures s'.locks == s.locks + if e.RefusesAll? then 1 else 0
    ensures s'.listener == s.listener + if e.RevokesSystem? then 1 else 0
    ensures s'.open == if e.VaultLocks? then false else if e.VaultUnlocks? then true else s.open
  {
  }

  ghost predicate Asked(s: State, x: Id, system: bool, listener: nat, locks: nat) {
    && x in s.requests
    && s.requests[x].system == system && s.requests[x].listener == listener && s.requests[x].locks == locks
  }

  lemma AskedKept(s: State, e: Event, s': State, x: Id, system: bool, listener: nat, locks: nat)
    requires Next(s, e, s') && Asked(s, x, system, listener, locks)
    ensures Asked(s', x, system, listener, locks)
  {
    Moved(s, e, s', x);
  }

  lemma AskedSince(r: Run<State, Event>, c: nat, d: nat, x: Id, system: bool, listener: nat)
    requires IsRun(r, Init, Next) && c < d < |r.states| && r.events[c] == Asks(x, system, listener)
    ensures Asked(r.states[d], x, system, listener, r.states[c].locks)
  {
    var locks := r.states[c].locks;
    assert Next(r.states[c], r.events[c], r.states[c + 1]);
    forall s, e, s' | Asked(s, x, system, listener, locks) && Next(s, e, s')
      ensures Asked(s', x, system, listener, locks)
    {
      AskedKept(s, e, s', x, system, listener, locks);
    }
    Kept(r, Next, (s: State) => Asked(s, x, system, listener, locks), c + 1, d);
  }

  /** Over every run, a request gets into the line exactly when its connection is still there,
      nothing was locked since it asked and, for the system agent's, its listener was the
      current one then and was not revoked since or, for a forwarded one, fewer than 64 of
      them wait. It is refused otherwise. */
  lemma JoinsIff(r: Run<State, Event>, c: nat, d: nat, x: Id, system: bool, listener: nat, gone: bool)
    requires IsRun(r, Init, Next) && c < d < |r.events|
    requires r.events[c] == Asks(x, system, listener) && r.events[d] == Joins(x, gone)
    ensures x in r.states[d + 1].requests
    ensures r.states[d + 1].requests[x].pc ==
            if && !gone && (forall i :: c < i < d ==> !r.events[i].RefusesAll?)
               && (if system then
                     r.states[c].listener == listener && forall i :: c < i < d ==> !r.events[i].RevokesSystem?
                   else Forwarded(r.states[d].line) < 64)
            then InLine else Over(false)
  {
    AskedSince(r, c, d, x, system, listener);
    assert Next(r.states[c], r.events[c], r.states[c + 1]) && Next(r.states[d], r.events[d], r.states[d + 1]);
    LocksMoveAtRefusals(r, c + 1, d);
    ListenerMovesAtRevokes(r, c + 1, d);
  }

  lemma {:induction false} VaultStays(r: Run<State, Event>, a: nat, b: nat)
    requires IsRun(r, Init, Next) && a <= b < |r.states|
    requires forall i :: a <= i < b ==> r.events[i] != if r.states[a].open then VaultLocks else VaultUnlocks
    ensures r.states[b].open == r.states[a].open
    decreases b
  {
    if a < b {
      VaultStays(r, a, b - 1);
      assert Next(r.states[b - 1], r.events[b - 1], r.states[b]);
      CountersStep(r.states[b - 1], r.events[b - 1], r.states[b]);
    }
  }

  /** A request that asks while the vault is locked goes no further; while it is open, it
      goes on to the line. */
  lemma VaultSeen(r: Run<State, Event>, a: nat, d: nat, x: Id)
    requires IsRun(r, Init, Next) && a < d < |r.events| && r.events[d] == SeesVault(x)
    requires r.events[a].VaultLocks? || r.events[a].VaultUnlocks?
    requires forall i :: a < i < d ==> !r.events[i].VaultLocks? && !r.events[i].VaultUnlocks?
    ensures At(r.states[d + 1], x, if r.events[a].VaultLocks? then Over(false) else Joining)
  {
    assert Next(r.states[a], r.events[a], r.states[a + 1]) && Next(r.states[d], r.events[d], r.states[d + 1]);
    CountersStep(r.states[a], r.events[a], r.states[a + 1]);
    VaultStays(r, a + 1, d);
  }

  // ---------- whose prompts a revoke withdraws ----------

  /** A prompt is marked as its request is, and only the system agent's are swept. */
  ghost predicate MarkedAsAsked(s: State, x: Id) {
    && (x in s.registry.pending ==> x in s.requests && s.registry.pending[x] == s.requests[x].system)
    && (x in s.sweeps ==> x in s.requests && s.requests[x].system)
  }

  lemma MarkedAsAskedKept(s: State, e: Event, s': State, x: Id)
    requires Next(s, e, s') && MarkedAsAsked(s, x)
    ensures MarkedAsAsked(s', x)
  {
    if x in s.requests {
      Moved(s, e, s', x);
    }
    if x in s'.sweeps && x !in s.sweeps {
      SweptIsSystem(s, e, s', x);
    }
    if x in s'.registry.pending {
      PendingMark(s, e, s', x);
    }
  }

  lemma SweptIsSystem(s: State, e: Event, s': State, x: Id)
    requires Next(s, e, s') && x in s'.sweeps && x !in s.sweeps
    ensures x in s.registry.pending && s.registry.pending[x] && s'.requests == s.requests
  {
  }

  lemma PendingMark(s: State, e: Event, s': State, x: Id)
    requires Next(s, e, s') && x in s'.registry.pending
    ensures || (x in s.registry.pending && s'.registry.pending[x] == s.registry.pending[x])
            || (x in s.requests && s'.registry.pending[x] == s.requests[x].system)
  {
  }

  /** Over every run, only the system agent's prompts are withdrawn by `cancel_system`. */
  lemma OnlySystemSwept(r: Run<State, Event>, i: nat, x: Id)
    requires IsRun(r, Init, Next) && i < |r.states|
    ensures x in r.states[i].registry.pending ==>
              x in r.states[i].requests && r.states[i].registry.pending[x] == r.states[i].requests[x].system
    ensures x in r.states[i].sweeps ==> x in r.states[i].requests && r.states[i].requests[x].system
  {
    forall s, e, s' | MarkedAsAsked(s, x) && Next(s, e, s')
      ensures MarkedAsAsked(s', x)
    {
      MarkedAsAskedKept(s, e, s', x);
    }
    Kept(r, Next, (s: State) => MarkedAsAsked(s, x), 0, i);
    assert MarkedAsAsked(r.states[i], x);
  }

  /** ... and each of them is: one that is pending is taken out and refused. */
  lemma SystemPromptWithdrawn(s: State, x: Id) returns (r: Run<State, Event>)
    requires x in s.registry.pending && s.registry.pending[x] && x in s.requests
    ensures IsRun(r, Anywhere, Next) && r.states[0] == s && |r.events| == 2
    ensures r.events[0].SweepsSystem? && r.events[1] == WithdrawCalls(x)
    ensures x !in r.states[2].registry.pending && x in r.states[2].requests
    ensures r.states[2].requests[x].queue == s.requests[x].queue + [false]
  {
    var ids := set id | id in s.registry.pending && s.registry.pending[id];
    var s1 := s.(sweeps := s.sweeps + ids);
    var s2 := Answered(s1, x, false);
    assert AnswerStep(s, SweepsSystem(ids), s1) && AnswerStep(s1, WithdrawCalls(x), s2);
    r := Run([s, s1, s2], [SweepsSystem(ids), WithdrawCalls(x)]);
  }

  lemma {:induction false} RetainShorter(line: seq<Waiting>, drop: Waiting -> bool, keep: Waiting -> bool)
    ensures |Retain(Retain(line, drop), keep)| <= |Retain(line, keep)|
  {
    if line != [] {
      var head := line[..1];
      assert line == head + line[1..];
      RetainShorter(line[1..], drop, keep);
      RetainSplits(head, line[1..], drop);
      RetainSplits(head, line[1..], keep);
      RetainSplits(Retain(head, drop), Retain(line[1..], drop), keep);
      RetainOne(line[0], drop);
      RetainOne(line[0], keep);
    }
  }

  lemma ForwardedSplits(x: seq<Waiting>, y: seq<Waiting>)
    ensures Forwarded(x + y) == Forwarded(x) + Forwarded(y)
  {
    RetainSplits(x, y, IsForwarded);
  }

  /** Nothing but joining adds a forwarded request to the line. */
  lemma FewerWithout(line: seq<Waiting>, x: Id)
    ensures Forwarded(Without(line, x)) <= Forwarded(line) && Forwarded(Withdrawn(line, x)) <= Forwarded(line)
  {
    RetainShorter(line, OtherThan(x), IsForwarded);
  }

  lemma FewerRefused(line: seq<Waiting>)
    ensures Forwarded(RefusedLine(line)) <= Forwarded(line)
  {
    if line != [] {
      assert line == line[..1] + line[1..];
      ForwardedSplits(line[..1], line[1..]);
    }
  }

  lemma FewerRevoked(line: seq<Waiting>)
    ensures Forwarded(RevokedLine(line)) <= Forwarded(line)
  {
    if line != [] {
      var front, rest := line[..1], line[1..];
      assert line == front + rest && RevokedLine(line) == front + Retain(rest, IsForwarded);
      ForwardedSplits(front, rest);
      ForwardedSplits(front, Retain(rest, IsForwarded));
      RetainShorter(rest, IsForwarded, IsForwarded);
    }
  }

  lemma RoomKeptInLine(s: State, e: Event, s': State)
    requires LineStep(s, e, s') && Forwarded(s.line) <= 64
    ensures Forwarded(s'.line) <= 64
  {
    FewerWithout(s.line, e.id);
    if e.Joins? {
      ForwardedSplits(s.line, [Waiting(e.id, s.requests[e.id].system)]);
      RetainOne(Waiting(e.id, s.requests[e.id].system), IsForwarded);
    }
  }

  lemma RoomKept(s: State, e: Event, s': State)
    requires Next(s, e, s') && Forwarded(s.line) <= 64
    ensures Forwarded(s'.line) <= 64
  {
    if LineStep(s, e, s') {
      RoomKeptInLine(s, e, s');
    } else if ControlStep(s, e, s') {
      FewerWithout(s.line, if e.ConnectionCloses? then e.id else 0);
      FewerRevoked(s.line);
      FewerRefused(s.line);
    } else {
      assert s'.line == s.line;
    }
  }

  /** Over every run, never more than 64 forwarded requests are in the line. */
  lemma ForwardedHaveRoom(r: Run<State, Event>, i: nat)
    requires IsRun(r, Init, Next) && i < |r.states|
    ensures Forwarded(r.states[i].line) <= 64
  {
    forall s: State, e, s' | Forwarded(s.line) <= 64 && Next(s, e, s')
      ensures Forwarded(s'.line) <= 64
    {
      RoomKept(s, e, s');
    }
    Kept(r, Next, (s: State) => Forwarded(s.line) <= 64, 0, i);
  }

  /** A request that comes in time is admitted: the vault open, nothing revoked or locked
      since, its connection there and, if forwarded, room in the line. */
  lemma TimelyRequestJoins(s: State, x: Id) returns (r: Run<State, Event>)
    requires At(s, x, Setting) && s.open && s.requests[x].locks == s.locks
    requires if s.requests[x].system then s.requests[x].listener == s.listener else Forwarded(s.line) < 64
    ensures IsRun(r, Anywhere, Next) && r.states[0] == s && r.events == [SeesVault(x), Joins(x, false)]
    ensures At(r.states[2], x, InLine) && r.states[2].line == s.line + [Waiting(x, s.requests[x].system)]
  {
    var s1 := Move(s, x, Joining);
    var s2 := Move(s1, x, InLine).(line := s.line + [Waiting(x, s.requests[x].system)]);
    assert LineStep(s, SeesVault(x), s1) && LineStep(s1, Joins(x, false), s2);
    r := Run([s, s1, s2], [SeesVault(x), Joins(x, false)]);
  }

  /** At the front and not cancelled, it is shown; the prompt answered with yes and nothing
      else happening, the request is approved. */
  lemma FrontRequestShown(s: State, x: Id) returns (r: Run<State, Event>)
    requires At(s, x, InLine) && AtFront(s.line, x) && x !in s.registry.early
    ensures IsRun(r, Anywhere, Next) && r.states[0] == s
    ensures r.events == [Proceeds(x), Registers(x), Emits(x, true)]
    ensures At(r.states[3], x, Shown) && r.states[3].requests[x].(pc := InLine) == s.requests[x]
    ensures x in r.states[3].registry.pending && r.states[3].registry.pending[x] == s.requests[x].system
    ensures r.states[3].line == s.line && r.states[3].registry.early == {}
  {
    var s1 := Move(s, x, Handed);
    var s2 := Move(s1, x, Registered).(registry := Registry(s.registry.pending[x := s.requests[x].system], {}));
    var s3 := Move(s2, x, Shown);
    assert LineStep(s, Proceeds(x), s1) && PromptStep(s1, Registers(x), s2) && PromptStep(s2, Emits(x, true), s3);
    r := Run([s, s1, s2, s3], [Proceeds(x), Registers(x), Emits(x, true)]);
  }

  lemma AnswerIsReturned(s: State, x: Id, approved: bool) returns (r: Run<State, Event>)
    requires At(s, x, Shown) && x in s.registry.pending && s.requests[x].queue == []
    ensures IsRun(r, Anywhere, Next) && r.states[0] == s
    ensures r.events == [UserAnswers(x, approved), Sends(x), Receives(x), Returns(x)]
    ensures At(r.states[4], x, Over(approved)) && x !in r.states[4].registry.pending
    ensures forall w :: w in r.states[4].line <==> w in s.line && w.id != x
  {
    var q := s.requests[x];
    var s1 := s.(registry := Registry(s.registry.pending - {x}, s.registry.early),
                 requests := s.requests[x := q.(queue := [approved])]);
    var s2 := s1.(requests := s.requests[x := q.(sent := q.sent + 1, inbox := Some(approved))]);
    var s3 := Move(s2, x, Returning(approved));
    var s4 := Move(s3, x, Over(approved)).(line := Without(s.line, x));
    AnswerSteps(s, s1, s2, x, approved);
    assert PromptStep(s2, Receives(x), s3) && LineStep(s3, Returns(x), s4);
    r := Run([s, s1, s2, s3, s4], [UserAnswers(x, approved), Sends(x), Receives(x), Returns(x)]);
  }

  lemma AnswerSteps(s: State, s1: State, s2: State, x: Id, approved: bool)
    requires x in s.requests && x in s.registry.pending && s.requests[x].queue == []
    requires s1 == s.(registry := Registry(s.registry.pending - {x}, s.registry.early),
                      requests := s.requests[x := s.requests[x].(queue := [approved])])
    requires var q := s.requests[x];
             s2 == s1.(requests := s.requests[x := q.(sent := q.sent + 1, inbox := Some(approved))])
    ensures Next(s, UserAnswers(x, approved), s1) && Next(s1, Sends(x), s2)
  {
    assert s.requests[x].queue + [approved] == [approved];
    assert [approved][1..] == [];
    assert AnswerStep(s, UserAnswers(x, approved), s1);
    assert s1.requests[x := s2.requests[x]] == s2.requests;
    assert AnswerStep(s1, Sends(x), s2);
  }

  ghost predicate Known(s: State, x: Id) {
    x in s.requests
  }

  ghost predicate Settled(s: State, x: Id) {
    x in s.requests && PastShowing(s.requests[x].pc)
  }

  lemma KnownKept(s: State, e: Event, s': State, x: Id)
    requires Next(s, e, s') && x in s.requests
    ensures Known(s', x) && (Settled(s, x) ==> Settled(s', x))
  {
    Moved(s, e, s', x);
  }

  lemma FrontNotShownAgain(r: Run<State, Event>, k: nat, m: nat, d: nat, x: Id)
    requires IsRun(r, Init, Next) && k < m < d < |r.states|
    requires x in r.states[k].requests && r.events[m] == CancelCalls(x)
    requires x in r.states[m].requests ==> !r.states[m].requests[x].pc.Registered?
    ensures x in r.states[d].requests && !r.states[d].requests[x].pc.Registered?
  {
    forall s, e, s' | Known(s, x) && Next(s, e, s')
      ensures Known(s', x) && (Settled(s, x) ==> Settled(s', x))
    {
      KnownKept(s, e, s', x);
    }
    Kept(r, Next, (s: State) => Known(s, x), k, m);
    assert Known(r.states[m], x);
    if Unregistered(r.states[m].requests[x].pc) {
      EarlyCancelRefusesUnseen(r, m, d, x);
    } else {
      assert Settled(r.states[m], x);
      Kept(r, Next, (s: State) => Settled(s, x), m, d);
      assert Settled(r.states[d], x);
    }
  }

  /** The exception is exact: a request registered when its cancel arrives, with the
      window not yet told, can be put on screen next. */
  lemma RegisteredStillShown(r: Run<State, Event>, m: nat, x: Id)
    requires IsRun(r, Init, Next) && m < |r.events| && r.events[m] == CancelCalls(x)
    requires x in r.states[m].requests && r.states[m].requests[x].pc.Registered?
    ensures At(r.states[m + 1], x, Registered)
    ensures Next(r.states[m + 1], Emits(x, true), Move(r.states[m + 1], x, Shown))
  {
    assert Next(r.states[m], r.events[m], r.states[m + 1]);
    assert AnswerStep(r.states[m], r.events[m], r.states[m + 1]);
    var shown := Move(r.states[m + 1], x, Shown);
    assert PromptStep(r.states[m + 1], Emits(x, true), shown);
  }

  // ---------- runs that show the exceptions ----------

  /** The only request, at the front of the line, with nothing cancelled. */
  function One(pc: Pc, pending: map<Id, bool>, queue: seq<bool>): State {
    State(true, [Waiting(0, true)], 0, 0, Registry(pending, {}),
          map[0 := Request(true, 0, 0, pc, queue, 0, None)], {}, {})
  }

  function OneRegistered(): State { One(Registered, map[0 := true], []) }

  lemma ReachesLine() returns (r: Run<State, Event>)
    ensures IsRun(r, Init, Next) && |r.events| == 3 && r.states[3] == One(InLine, map[], [])
  {
    var s0 := State(true, [], 0, 0, Registry(map[], {}), map[], {}, {});
    var s1 := s0.(requests := map[0 := Request(true, 0, 0, Setting, [], 0, None)]);
    var s2 := Move(s1, 0, Joining);
    var s3 := One(InLine, map[], []);
    r := Run([s0], []);
    assert LineStep(s0, Asks(0, true, 0), s1);
    r := Longer(r, Init, Next, Asks(0, true, 0), s1);
    assert LineStep(s1, SeesVault(0), s2);
    r := Longer(r, Init, Next, SeesVault(0), s2);
    assert LineStep(s2, Joins(0, false), s3);
    r := Longer(r, Init, Next, Joins(0, false), s3);
  }

  lemma ReachesRegistered() returns (r: Run<State, Event>)
    ensures IsRun(r, Init, Next) && |r.events| == 5 && r.states[5] == OneRegistered()
  {
    var s3, s4 := One(InLine, map[], []), One(Handed, map[], []);
    r := ReachesLine();
    assert LineStep(s3, Proceeds(0), s4);
    r := Longer(r, Init, Next, Proceeds(0), s4);
    assert PromptStep(s4, Registers(0), OneRegistered());
    r := Longer(r, Init, Next, Registers(0), OneRegistered());
  }

  lemma ReachesShown() returns (r: Run<State, Event>)
    ensures IsRun(r, Init, Next) && |r.events| == 6 && r.states[6] == One(Shown, map[0 := true], [])
  {
    r := ReachesRegistered();
    assert PromptStep(OneRegistered(), Emits(0, true), One(Shown, map[0 := true], []));
    r := Longer(r, Init, Next, Emits(0, true), One(Shown, map[0 := true], []));
  }

  /** The exception happens: a cancel that falls between the registration and the
      event to the window leaves a prompt on screen that no answer can reach. */
  lemma CancelBetweenRegistrationAndEvent() returns (r: Run<State, Event>)
    ensures IsRun(r, Init, Next) && |r.events| == 8
    ensures r.events[5] == RefusesAll && r.events[6] == CancelCalls(0) && r.events[7] == Emits(0, true)
    ensures At(r.states[8], 0, Shown) && r.states[8].registry.pending == map[]
  {
    var s6 := OneRegistered().(locks := 1, cancels := {0});
    var s7 := Answered(s6, 0, false);
    var s8 := Move(s7, 0, Shown);
    r := ReachesRegistered();
    assert ControlStep(OneRegistered(), RefusesAll, s6);
    r := Longer(r, Init, Next, RefusesAll, s6);
    assert AnswerStep(s6, CancelCalls(0), s7);
    r := Longer(r, Init, Next, CancelCalls(0), s7);
    assert PromptStep(s7, Emits(0, true), s8);
    r := Longer(r, Init, Next, Emits(0, true), s8);
  }

  lemma YesTakesPrompt(pc: Pc)
    ensures Next(One(pc, map[0 := true], []), UserAnswers(0, true), One(pc, map[], [true]))
  {
    var s, s' := One(pc, map[0 := true], []), One(pc, map[], [true]);
    assert s.registry.pending - {0} == s'.registry.pending;
    assert s.requests[0].queue + [true] == s'.requests[0].queue;
    assert s.requests[0 := s.requests[0].(queue := [true])] == s'.requests;
    assert AnswerStep(s, UserAnswers(0, true), s');
  }

  lemma ShownTimesOut(pending: map<Id, bool>, queue: seq<bool>)
    ensures Next(One(Shown, pending, queue), TimesOut(0), One(Withdrawing, pending, queue))
  {
    assert PromptStep(One(Shown, pending, queue), TimesOut(0), One(Withdrawing, pending, queue));
  }

  lemma WithdrawnWithYes()
    ensures Next(One(Withdrawing, map[], [true]), Withdraws(0), One(Returning(false), map[], [true]))
  {
    assert PromptStep(One(Withdrawing, map[], [true]), Withdraws(0), One(Returning(false), map[], [true]));
  }

  /** The last step of a request refused with a yes on its way. */
  lemma EndsRefused(r: Run<State, Event>) returns (q: Run<State, Event>)
    requires IsRun(r, Init, Next) && r.states[|r.events|] == One(Returning(false), map[], [true])
    ensures IsRun(q, Init, Next) && q.events == r.events + [Returns(0)] && |q.states| == |r.states| + 1
    ensures r.states <= q.states && At(q.states[|q.events|], 0, Over(false))
  {
    var s := r.states[|r.events|];
    var s' := Move(s, 0, Over(false)).(line := Without(s.line, 0));
    assert LineStep(s, Returns(0), s');
    q := Longer(r, Init, Next, Returns(0), s');
  }

  /** ... and the last two of one whose wait timed out. */
  lemma EndsWithdrawn(r: Run<State, Event>) returns (q: Run<State, Event>)
    requires IsRun(r, Init, Next) && r.states[|r.events|] == One(Withdrawing, map[], [true])
    ensures IsRun(q, Init, Next) && q.events == r.events + [Withdraws(0), Returns(0)]
    ensures |q.states| == |r.states| + 2
    ensures r.states <= q.states && At(q.states[|q.events|], 0, Over(false))
  {
    WithdrawnWithYes();
    q := Longer(r, Init, Next, Withdraws(0), One(Returning(false), map[], [true]));
    q := EndsRefused(q);
  }

  /** A yes taken in time is lost when the wait times out before it is sent. */
  lemma YesThenTimeout() returns (r: Run<State, Event>)
    ensures IsRun(r, Init, Next) && |r.events| == 10
    ensures r.events[6..] == [UserAnswers(0, true), TimesOut(0), Withdraws(0), Returns(0)]
    ensures 0 in r.states[6].registry.pending && At(r.states[10], 0, Over(false))
  {
    r := ReachesShown();
    YesTakesPrompt(Shown);
    r := Longer(r, Init, Next, UserAnswers(0, true), One(Shown, map[], [true]));
    ShownTimesOut(map[], [true]);
    r := Longer(r, Init, Next, TimesOut(0), One(Withdrawing, map[], [true]));
    r := EndsWithdrawn(r);
  }

  /** So is one taken between the timeout and the withdrawal. */
  lemma TimeoutThenYes() returns (r: Run<State, Event>)
    ensures IsRun(r, Init, Next) && |r.events| == 10
    ensures r.events[6..] == [TimesOut(0), UserAnswers(0, true), Withdraws(0), Returns(0)]
    ensures 0 in r.states[7].registry.pending && At(r.states[10], 0, Over(false))
  {
    r := ReachesShown();
    ShownTimesOut(map[0 := true], []);
    r := Longer(r, Init, Next, TimesOut(0), One(Withdrawing, map[0 := true], []));
    YesTakesPrompt(Withdrawing);
    r := Longer(r, Init, Next, UserAnswers(0, true), One(Withdrawing, map[], [true]));
    r := EndsWithdrawn(r);
  }

  /** And one taken before the event to the window fails. */
  lemma YesThenFailedEvent() returns (r: Run<State, Event>)
    ensures IsRun(r, Init, Next) && |r.events| == 8
    ensures r.events[5..] == [UserAnswers(0, true), Emits(0, false), Returns(0)]
    ensures 0 in r.states[5].registry.pending && At(r.states[8], 0, Over(false))
  {
    var s6, s7 := One(Registered, map[], [true]), One(Returning(false), map[], [true]);
    r := ReachesRegistered();
    YesTakesPrompt(Registered);
    r := Longer(r, Init, Next, UserAnswers(0, true), s6);
    assert PromptStep(s6, Emits(0, false), s7);
    r := Longer(r, Init, Next, Emits(0, false), s7);
    r := EndsRefused(r);
  }
}
