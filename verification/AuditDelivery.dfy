/** The audit export loop (server/src/audit_sinks.rs): at-least-once delivery of a
    growing log, in order, with a persisted cursor, retries and crashes. */
module AuditDelivery {
  import opened Wrappers
  import opened Runs

  /** An audit row. Seqs are positive and ascend along the log. */
  datatype Row = Row(seqNo: int, entry: string)

  ghost predicate Ascending(log: seq<Row>) {
    && (forall i :: 0 <= i < |log| ==> log[i].seqNo > 0)
    && (forall i, j :: 0 <= i < j < |log| ==> log[i].seqNo < log[j].seqNo)
  }

  // ---------- reading the log ----------

  /** The rows after `cursor`, as the page query selects them. */
  function After(log: seq<Row>, cursor: int): seq<Row> {
    if log == [] then [] else (if log[0].seqNo >= cursor + 1 then [log[0]] else []) + After(log[1..], cursor)
  }

  function Page(log: seq<Row>, cursor: int, limit: nat): seq<Row> {
    var rows := After(log, cursor);
    if |rows| <= limit then rows else rows[..limit]
  }

  /** How many rows the cursor has passed. */
  function Passed(log: seq<Row>, cursor: int): (n: nat)
    ensures n <= |log|
  {
    if log == [] then 0 else (if log[0].seqNo <= cursor then 1 else 0) + Passed(log[1..], cursor)
  }

  lemma {:induction false} NonePassed(log: seq<Row>, cursor: int)
    requires forall i :: 0 <= i < |log| ==> log[i].seqNo > cursor
    ensures Passed(log, cursor) == 0 && After(log, cursor) == log
  {
    if log != [] {
      NonePassed(log[1..], cursor);
    }
  }

  lemma {:induction false} PassedIff(log: seq<Row>, cursor: int, i: nat)
    requires Ascending(log) && i < |log|
    ensures log[i].seqNo <= cursor <==> i < Passed(log, cursor)
  {
    if log[0].seqNo > cursor {
      NonePassed(log, cursor);
    } else if i > 0 {
      PassedIff(log[1..], cursor, i - 1);
    }
  }

  lemma {:induction false} AfterIs(log: seq<Row>, cursor: int)
    requires Ascending(log)
    ensures After(log, cursor) == log[Passed(log, cursor)..]
  {
    if log != [] && log[0].seqNo > cursor {
      NonePassed(log, cursor);
    } else if log != [] {
      AfterIs(log[1..], cursor);
    }
  }

  lemma AfterIsTail(log: seq<Row>, cursor: int)
    requires Ascending(log)
    ensures After(log, cursor) == log[Passed(log, cursor)..]
    ensures forall i :: 0 <= i < |log| ==> (log[i].seqNo <= cursor <==> i < Passed(log, cursor))
  {
    AfterIs(log, cursor);
    forall i | 0 <= i < |log|
      ensures log[i].seqNo <= cursor <==> i < Passed(log, cursor)
    {
      PassedIff(log, cursor, i);
    }
  }

  lemma PageIsStretch(log: seq<Row>, cursor: int, size: nat)
    requires Ascending(log)
    ensures var page, n := Page(log, cursor, size), Passed(log, cursor);
            n + |page| <= |log| && page == log[n..n + |page|]
  {
    AfterIsTail(log, cursor);
  }

  /** A cursor that stands at row `n - 1` has passed exactly `n` rows, whatever is appended. */
  lemma PassedAt(log: seq<Row>, n: nat)
    requires Ascending(log) && 0 < n <= |log|
    ensures Passed(log, log[n - 1].seqNo) == n
  {
    AfterIsTail(log, log[n - 1].seqNo);
    assert n < |log| ==> log[n - 1].seqNo < log[n].seqNo;
  }

  // ---------- the backoff ----------

  const U32_MAX: nat := 0xFFFF_FFFF
  const BACKOFF_MIN_MS: nat := 1000
  const BACKOFF_MAX_MS: nat := 300_000

  function Min(a: nat, b: nat): nat {
    if a < b then a else b
  }

  function Pow2(n: nat): (p: nat)
    ensures p > 0
  {
    if n == 0 then 1 else 2 * Pow2(n - 1)
  }

  function Base(failures: nat): nat {
    Min(BACKOFF_MIN_MS * Pow2(Min(failures, 16)), BACKOFF_MAX_MS)
  }

  /** `random_jitter`: up to a quarter less. */
  function Jittered(base: nat, random: nat): nat
    requires base > 0
  {
    base - random % (base / 4 + 1)
  }

  /** Every delay from three quarters of the base up to it can come out, and no other. */
  lemma JitterSpreadsIff(base: nat, delay: int)
    requires base > 0
    ensures (exists random: nat :: Jittered(base, random) == delay) <==> base - base / 4 <= delay <= base
  {
    if base - base / 4 <= delay <= base {
      assert Jittered(base, base - delay) == delay;
    }
  }

  /** Failures are counted without overflow. */
  function Counted(failures: nat): nat {
    Min(failures + 1, U32_MAX)
  }

  lemma {:induction false} Pow2Grows(m: nat, n: nat)
    requires m <= n
    ensures Pow2(m) <= Pow2(n)
    decreases n
  {
    if m < n {
      Pow2Grows(m, n - 1);
    }
  }

  /** What the count of failures stands at before the `k`-th in a row. */
  function FailuresBefore(k: nat): nat
    requires k > 0
  {
    if k == 1 then 0 else Counted(FailuresBefore(k - 1))
  }

  lemma {:induction false} FailuresBeforeIs(k: nat)
    requires k > 0
    ensures FailuresBefore(k) == Min(k - 1, U32_MAX)
  {
    if k > 1 {
      FailuresBeforeIs(k - 1);
    }
  }

  /** The k-th failure in a row waits between three quarters of min(2^(k-1), 300)
      seconds and that value, however many failures there have been. */
  lemma BackoffOfKthFailure(k: nat, random: nat)
    requires k > 0
    ensures var seconds := Min(Pow2(k - 1), 300);
            var delay := Jittered(Base(FailuresBefore(k)), random);
            750 * seconds <= delay <= 1000 * seconds
  {
    FailuresBeforeIs(k);
    assert Pow2(9) == 512;
    if k - 1 >= 9 {
      Pow2Grows(9, k - 1);
      Pow2Grows(9, Min(FailuresBefore(k), 16));
    }
    var base := Base(FailuresBefore(k));
    assert base == 1000 * Min(Pow2(k - 1), 300);
    assert 0 <= random % (base / 4 + 1) <= base / 4;
  }

  // ---------- one step ----------

  /** The loop's own memory: lost in a crash. */
  datatype Task = Task(pending: Option<seq<Row>>, failures: nat)

  /** A sink that reports an error may have got the batch all the same, or as many of its
      rows as went out before the error; a store that reports a failed write may have
      written. */
  datatype SinkSays = Acked | Rejected(reached: nat)
  datatype StoreSays = Saved | Unsaved(written: bool)
  datatype Env = Env(readable: bool, sink: SinkSays, store: StoreSays, random: nat)

  datatype Step = Delivered(first: int, last: int) | Idle | Failed(delay: nat)

  /** What outlives the loop: the cursor, and what the receiver got and acknowledged. */
  datatype Outside = Outside(cursor: int, received: seq<Row>, acked: set<Row>)

  function Rows(rows: seq<Row>): set<Row> {
    set x | x in rows
  }

  /** The batch a step works on: the one being retried, or the next page. */
  function Batch(log: seq<Row>, cursor: int, pending: Option<seq<Row>>, size: nat): seq<Row> {
    if pending.Some? then pending.value else Page(log, cursor, size)
  }

  /** The rows of a batch that went out. */
  function Got(batch: seq<Row>, env: Env): seq<Row> {
    if env.sink.Acked? then batch else batch[..Min(env.sink.reached, |batch|)]
  }

  function AfterDeliver(o: Outside, batch: seq<Row>, env: Env): Outside {
    o.(received := o.received + Got(batch, env),
       acked := if env.sink.Acked? then o.acked + Rows(batch) else o.acked)
  }

  function AfterSave(o: Outside, batch: seq<Row>, env: Env): Outside
    requires batch != []
  {
    if env.sink.Acked? && (env.store.Saved? || env.store.written) then o.(cursor := batch[|batch| - 1].seqNo) else o
  }

  /** A step's effect on the outside and on the loop, whatever the sink and the
      store answer. */
  function Stepped(log: seq<Row>, o: Outside, t: Task, size: nat, env: Env): (Outside, Task) {
    var batch := Batch(log, o.cursor, t.pending, size);
    if t.pending.None? && !env.readable then (o, Task(None, Counted(t.failures)))
    else if batch == [] then (o, Task(None, 0))
    else (AfterSave(AfterDeliver(o, batch, env), batch, env),
          if env.sink.Acked? && env.store.Saved? then Task(None, 0) else Task(Some(batch), Counted(t.failures)))
  }

  /** The step fails: the log cannot be read, or the batch is not acknowledged and saved. */
  predicate StepFails(log: seq<Row>, o: Outside, t: Task, size: nat, env: Env) {
    if t.pending.None? && !env.readable then true
    else Batch(log, o.cursor, t.pending, size) != [] && !(env.sink.Acked? && env.store.Saved?)
  }

  class Delivery {
    const size: nat
    var pending: Option<seq<Row>>
    var failures: nat
    var cursor: int
    var received: seq<Row>
    var acked: set<Row>

    ghost predicate Valid()
      reads this
    {
      size > 0 && failures <= U32_MAX && (pending.Some? ==> pending.value != [])
    }

    function Out(): Outside
      reads this
    {
      Outside(cursor, received, acked)
    }

    function Memory(): Task
      reads this
    {
      Task(pending, failures)
    }

    constructor (batchSize: nat)
      ensures Valid() && size == (if batchSize == 0 then 1 else batchSize)
      ensures pending == None && failures == 0 && Out() == Outside(0, [], {})
    {
      size := if batchSize == 0 then 1 else batchSize;
      pending, failures := None, 0;
      cursor, received, acked := 0, [], {};
    }

    method Fail(random: nat) returns (delay: nat)
      requires Valid()
      modifies this`failures
      ensures Valid() && failures == Counted(old(failures))
      ensures delay == Jittered(Base(old(failures)), random)
    {
      delay := Jittered(Base(failures), random);
      failures := Counted(failures);
    }

    /** One delivery attempt. The cursor moves only behind an acknowledgement, and a
        failure keeps the very same batch for the next attempt. */
    method DeliverStep(log: seq<Row>, env: Env) returns (step: Step)
      requires Valid()
      modifies this
      ensures Valid()
      ensures (Out(), Memory()) == Stepped(log, old(Out()), old(Memory()), size, env)
      ensures step.Idle? <==> old(pending).None? && env.readable && After(log, old(cursor)) == []
      ensures step.Delivered? <==>
              !step.Idle? && (old(pending).Some? || env.readable) && env.sink.Acked? && env.store.Saved?
      ensures step.Delivered? ==> cursor == step.last && Rows(Batch(log, old(cursor), old(pending), size)) <= acked
      ensures step.Failed? <==> StepFails(log, old(Out()), old(Memory()), size, env)
      ensures step.Failed? ==> step.delay == Jittered(Base(old(failures)), env.random)
      ensures step.Failed? && old(pending).Some? ==> pending == old(pending)
    {
      var batch: seq<Row>;
      if pending.Some? {
        batch := pending.value;
        pending := None;
      } else {
        if !env.readable {
          var delay := Fail(env.random);
          return Failed(delay);
        }
        batch := Page(log, cursor, size);
        if batch == [] {
          failures := 0;
          return Idle;
        }
      }
      var first, last := batch[0].seqNo, batch[|batch| - 1].seqNo;
      received := received + Got(batch, env);
      if env.sink.Acked? {
        acked := acked + Rows(batch);
        if env.store.Saved? || env.store.written {
          cursor := last;
        }
        if env.store.Saved? {
          failures := 0;
          return Delivered(first, last);
        }
      }
      pending := Some(batch);
      var delay := Fail(env.random);
      step := Failed(delay);
    }
  }

  // ---------- every run of appends, steps, failures and crashes ----------

  datatype State = State(log: seq<Row>, out: Outside, task: Task, size: nat)

  /** A crash can fall inside a step: after the batch went out, or after the
      cursor was written, or before either. */
  datatype Event =
    | Appends(row: Row)
    | Steps(env: Env)
    | Crashes
    | CrashesInStep(env: Env, delivered: bool)

  ghost predicate Init(s: State) {
    s == State([], Outside(0, [], {}), Task(None, 0), s.size) && s.size > 0
  }

  ghost predicate Next(s: State, e: Event, s': State) {
    match e
    case Appends(row) => Ascending(s.log + [row]) && s' == s.(log := s.log + [row])
    case Steps(env) =>
      var (o, t) := Stepped(s.log, s.out, s.task, s.size, env);
      s' == s.(out := o, task := t)
    case Crashes => s' == s.(task := Task(None, 0))
    case CrashesInStep(env, delivered) =>
      && Batch(s.log, s.out.cursor, s.task.pending, s.size) != []
      && var batch := Batch(s.log, s.out.cursor, s.task.pending, s.size);
      var sent := AfterDeliver(s.out, batch, env);
      s' == s.(out := if delivered then sent else AfterSave(sent, batch, env), task := Task(None, 0))
  }

  predicate Seen(rows: seq<Row>, x: Row) {
    exists y :: y in rows && y.seqNo == x.seqNo
  }

  /** What the receiver keeps: a row whose seq it has seen before is dropped. */
  function Deduped(rows: seq<Row>): seq<Row> {
    if rows == [] then []
    else
      var kept, x := Deduped(rows[..|rows| - 1]), rows[|rows| - 1];
      if Seen(kept, x) then kept else kept + [x]
  }

  ghost predicate AckedUpTo(log: seq<Row>, acked: set<Row>, n: nat) {
    n <= |log| && forall i :: 0 <= i < n ==> log[i] in acked
  }

  /** The receiver has a prefix of the log in log order; the cursor is within it,
      and everything the cursor has passed was acknowledged. */
  ghost predicate Good(log: seq<Row>, o: Outside) {
    && Ascending(log)
    && (o.cursor == 0 || (log != [] && o.cursor <= log[|log| - 1].seqNo))
    && Deduped(o.received) <= log
    && Passed(log, o.cursor) <= |Deduped(o.received)|
    && AckedUpTo(log, o.acked, Passed(log, o.cursor))
  }

  /** A batch is a stretch of the log that begins no later than what the receiver
      has, everything before it acknowledged. */
  ghost predicate Stretch(log: seq<Row>, o: Outside, batch: seq<Row>, a: nat) {
    && batch != [] && a + |batch| <= |log| && batch == log[a..a + |batch|]
    && a <= |Deduped(o.received)|
    && AckedUpTo(log, o.acked, a)
  }

  ghost predicate Inv(s: State) {
    && s.size > 0
    && Good(s.log, s.out)
    && (s.task.pending.Some? ==> exists a: nat :: Stretch(s.log, s.out, s.task.pending.value, a))
  }

  lemma DedupedOne(rows: seq<Row>, x: Row)
    ensures Deduped(rows + [x]) == if Seen(Deduped(rows), x) then Deduped(rows) else Deduped(rows) + [x]
  {
    assert (rows + [x])[..|rows + [x]| - 1] == rows;
  }

  lemma SeenInPrefix(log: seq<Row>, k: nat, j: nat)
    requires Ascending(log) && k <= |log| && j < |log|
    ensures Seen(log[..k], log[j]) <==> j < k
  {
    if j < k {
      assert log[..k][j] in log[..k];
    }
  }

  lemma Snoc(rows: seq<Row>, log: seq<Row>, a: nat, b: nat)
    requires a < b <= |log|
    ensures rows + log[a..b] == rows + log[a..b - 1] + [log[b - 1]]
  {
  }

  lemma DedupedNext(rows: seq<Row>, log: seq<Row>, m: nat, j: nat)
    requires Ascending(log) && j <= m <= |log| && j < |log| && Deduped(rows) == log[..m]
    ensures Deduped(rows + [log[j]]) == log[..if m == j then m + 1 else m]
  {
    DedupedOne(rows, log[j]);
    SeenInPrefix(log, m, j);
  }

  /** Receiving a stretch again, or some of it again, adds exactly what is new. */
  lemma {:induction false} DedupedStretch(received: seq<Row>, log: seq<Row>, k: nat, a: nat, b: nat)
    requires Ascending(log) && a <= k <= |log| && a <= b <= |log|
    requires Deduped(received) == log[..k]
    ensures Deduped(received + log[a..b]) == log[..if k < b then b else k]
    decreases b
  {
    if a == b {
      assert received + log[a..b] == received;
    } else {
      DedupedStretch(received, log, k, a, b - 1);
      Snoc(received, log, a, b);
      DedupedNext(received + log[a..b - 1], log, if k < b - 1 then b - 1 else k, b - 1);
    }
  }

  /** The batch of the next step, if there is one, is such a stretch. */
  lemma NextBatchIsStretch(s: State) returns (a: nat)
    requires Inv(s) && Batch(s.log, s.out.cursor, s.task.pending, s.size) != []
    ensures Stretch(s.log, s.out, Batch(s.log, s.out.cursor, s.task.pending, s.size), a)
  {
    if s.task.pending.Some? {
      a :| Stretch(s.log, s.out, s.task.pending.value, a);
    } else {
      PageIsStretch(s.log, s.out.cursor, s.size);
      a := Passed(s.log, s.out.cursor);
    }
  }

  lemma SentIsGood(log: seq<Row>, o: Outside, batch: seq<Row>, a: nat, env: Env)
    requires Good(log, o) && Stretch(log, o, batch, a)
    ensures var sent := AfterDeliver(o, batch, env);
            && Good(log, sent) && Stretch(log, sent, batch, a)
            && (env.sink.Acked? ==> AckedUpTo(log, sent.acked, a + |batch|) && a + |batch| <= |Deduped(sent.received)|)
  {
    SentIsHeard(log, o, batch, a, env);
    if env.sink.Acked? {
      MoreAcked(log, o.acked, batch, Passed(log, o.cursor));
      MoreAcked(log, o.acked, batch, a);
      AckedGrows(log, o.acked, batch, a);
    }
  }

  lemma GotIsStretch(log: seq<Row>, batch: seq<Row>, a: nat, env: Env)
    requires a + |batch| <= |log| && batch == log[a..a + |batch|]
    ensures |Got(batch, env)| <= |batch| && Got(batch, env) == log[a..a + |Got(batch, env)|]
  {
  }

  lemma SentIsHeard(log: seq<Row>, o: Outside, batch: seq<Row>, a: nat, env: Env)
    requires Ascending(log) && Deduped(o.received) <= log && Stretch(log, o, batch, a)
    ensures var heard := Deduped(AfterDeliver(o, batch, env).received);
            && heard <= log && |Deduped(o.received)| <= |heard|
            && (env.sink.Acked? ==> a + |batch| <= |heard|)
  {
    GotIsStretch(log, batch, a, env);
    HeardMore(log, o.received, a, a + |Got(batch, env)|);
  }

  lemma HeardMore(log: seq<Row>, received: seq<Row>, a: nat, b: nat)
    requires Ascending(log) && Deduped(received) <= log && a <= |Deduped(received)| && a <= b <= |log|
    ensures var heard := Deduped(received + log[a..b]);
            heard <= log && |Deduped(received)| <= |heard| && b <= |heard|
  {
    DedupedStretch(received, log, |Deduped(received)|, a, b);
  }

  lemma MoreAcked(log: seq<Row>, acked: set<Row>, batch: seq<Row>, n: nat)
    requires AckedUpTo(log, acked, n)
    ensures AckedUpTo(log, acked + Rows(batch), n)
  {
  }

  lemma AckedGrows(log: seq<Row>, acked: set<Row>, batch: seq<Row>, a: nat)
    requires AckedUpTo(log, acked, a) && a + |batch| <= |log| && batch == log[a..a + |batch|]
    ensures AckedUpTo(log, acked + Rows(batch), a + |batch|)
  {
    forall i | 0 <= i < a + |batch|
      ensures log[i] in acked + Rows(batch)
    {
      assert i >= a ==> log[i] == batch[i - a];
    }
  }

  lemma SavedIsGood(log: seq<Row>, o: Outside, batch: seq<Row>, a: nat, env: Env)
    requires Good(log, o) && Stretch(log, o, batch, a)
    requires env.sink.Acked? ==> AckedUpTo(log, o.acked, a + |batch|) && a + |batch| <= |Deduped(o.received)|
    ensures Good(log, AfterSave(o, batch, env)) && Stretch(log, AfterSave(o, batch, env), batch, a)
  {
    var b := a + |batch|;
    assert batch[|batch| - 1] == log[b - 1];
    PassedAt(log, b);
  }

  lemma {:induction false} PassedAppended(log: seq<Row>, row: Row, cursor: int)
    requires cursor < row.seqNo
    ensures Passed(log + [row], cursor) == Passed(log, cursor)
  {
    if log != [] {
      assert (log + [row])[1..] == log[1..] + [row];
      PassedAppended(log[1..], row, cursor);
    }
  }

  lemma AppendKeepsInv(s: State, row: Row)
    requires Inv(s) && Ascending(s.log + [row])
    ensures Inv(s.(log := s.log + [row]))
  {
    var log' := s.log + [row];
    assert log'[|s.log|] == row && (s.log != [] ==> log'[|s.log| - 1] == s.log[|s.log| - 1]);
    PassedAppended(s.log, row, s.out.cursor);
    assert Good(log', s.out);
    if s.task.pending.Some? {
      var a: nat :| Stretch(s.log, s.out, s.task.pending.value, a);
      assert log'[a..a + |s.task.pending.value|] == s.log[a..a + |s.task.pending.value|];
      assert Stretch(log', s.out, s.task.pending.value, a);
    }
  }

  lemma InvKept(s: State, e: Event, s': State)
    requires Inv(s) && Next(s, e, s')
    ensures Inv(s')
  {
    if e.Appends? {
      AppendKeepsInv(s, e.row);
    } else if !e.Crashes? && Batch(s.log, s.out.cursor, s.task.pending, s.size) != [] {
      var batch := Batch(s.log, s.out.cursor, s.task.pending, s.size);
      var a := NextBatchIsStretch(s);
      SentIsGood(s.log, s.out, batch, a, e.env);
      SavedIsGood(s.log, AfterDeliver(s.out, batch, e.env), batch, a, e.env);
    }
  }

  /** Over every run of appends, failures and crashes: what the receiver keeps is a
      prefix of the log, in log order, and every row at or below the persisted
      cursor was in a batch it acknowledged. */
  lemma AtLeastOnceInOrder(r: Run<State, Event>, i: nat)
    requires IsRun(r, Init, Next) && i < |r.states|
    ensures Deduped(r.states[i].out.received) <= r.states[i].log
    ensures forall j :: 0 <= j < |r.states[i].log| && r.states[i].log[j].seqNo <= r.states[i].out.cursor ==>
              r.states[i].log[j] in r.states[i].out.acked && r.states[i].log[j] in Deduped(r.states[i].out.received)
  {
    forall s, e, s' | Inv(s) && Next(s, e, s')
      ensures Inv(s')
    {
      InvKept(s, e, s');
    }
    Kept(r, Next, Inv, 0, i);
    var s := r.states[i];
    assert Inv(s);
    AfterIsTail(s.log, s.out.cursor);
    forall j | 0 <= j < |s.log| && s.log[j].seqNo <= s.out.cursor
      ensures s.log[j] in Deduped(s.out.received)
    {
      assert Deduped(s.out.received)[j] == s.log[j];
    }
  }

  // ---------- backing off ----------

  /** From state `a` to state `b` the log may grow, every step fails, and nothing crashes. */
  ghost predicate OnlyFails(r: Run<State, Event>, a: nat, b: nat) {
    && r.Shaped() && a <= b < |r.states|
    && forall i :: a <= i < b ==> r.events[i].Appends? || FailsAt(r, i)
  }

  ghost predicate FailsAt(r: Run<State, Event>, i: nat)
    requires r.Shaped()
  {
    && i < |r.events| && r.events[i].Steps?
    && StepFails(r.states[i].log, r.states[i].out, r.states[i].task, r.states[i].size, r.events[i].env)
  }

  /** How many steps the loop takes in a stretch of a run. */
  function StepsIn(events: seq<Event>): nat {
    if events == [] then 0
    else StepsIn(events[..|events| - 1]) + if events[|events| - 1].Steps? then 1 else 0
  }

  lemma OneMoreEvent(events: seq<Event>, a: nat, b: nat)
    requires a < b <= |events|
    ensures StepsIn(events[a..b]) == StepsIn(events[a..b - 1]) + if events[b - 1].Steps? then 1 else 0
  {
    assert events[a..b][..b - a - 1] == events[a..b - 1];
  }

  lemma CountsFailure(r: Run<State, Event>, i: nat)
    requires IsRun(r, Init, Next) && i < |r.events| && (r.events[i].Appends? || FailsAt(r, i))
    ensures var before, after := r.states[i].task.failures, r.states[i + 1].task.failures;
            after == if r.events[i].Steps? then Counted(before) else before
  {
    assert Next(r.states[i], r.events[i], r.states[i + 1]);
  }

  lemma {:induction false} FailuresCounted(r: Run<State, Event>, a: nat, b: nat)
    requires IsRun(r, Init, Next) && OnlyFails(r, a, b) && r.states[a].task.failures == 0
    ensures r.states[b].task.failures == Min(StepsIn(r.events[a..b]), U32_MAX)
    decreases b
  {
    if a < b {
      FailuresCounted(r, a, b - 1);
      CountsFailure(r, b - 1);
      OneMoreEvent(r.events, a, b);
    }
  }

  /** Over every run: the k-th failed step in a row since the loop last stood at no failures
      waits between three quarters of min(2^(k-1), 300) seconds and that value. */
  lemma KthFailedStepWaits(r: Run<State, Event>, a: nat, b: nat)
    requires IsRun(r, Init, Next) && OnlyFails(r, a, b) && r.states[a].task.failures == 0 && FailsAt(r, b)
    ensures var k := StepsIn(r.events[a..b]) + 1;
            var seconds := Min(Pow2(k - 1), 300);
            var delay := Jittered(Base(r.states[b].task.failures), r.events[b].env.random);
            750 * seconds <= delay <= 1000 * seconds
  {
    var k := StepsIn(r.events[a..b]) + 1;
    FailuresCounted(r, a, b);
    FailuresBeforeIs(k);
    BackoffOfKthFailure(k, r.events[b].env.random);
  }

  // ---------- retrying ----------

  function BatchOf(s: State): seq<Row> {
    Batch(s.log, s.out.cursor, s.task.pending, s.size)
  }

  ghost predicate Retries(s: State, batch: seq<Row>) {
    s.task.pending == Some(batch)
  }

  /** A batch that was read and failed is the very one the next step works on, however the
      log has grown meanwhile. */
  lemma RetriesSameBatch(r: Run<State, Event>, i: nat, j: nat)
    requires IsRun(r, Init, Next) && i < j < |r.states| && FailsAt(r, i) && BatchOf(r.states[i]) != []
    requires r.states[i].task.pending.Some? || r.events[i].env.readable
    requires forall k :: i < k < j ==> r.events[k].Appends?
    ensures BatchOf(r.states[j]) == BatchOf(r.states[i])
  {
    var batch := BatchOf(r.states[i]);
    assert Next(r.states[i], r.events[i], r.states[i + 1]);
    var n := i + 1;
    while n < j
      invariant i < n <= j && Retries(r.states[n], batch)
    {
      assert Next(r.states[n], r.events[n], r.states[n + 1]);
      n := n + 1;
    }
  }

  /** After a crash the next batch is the page behind the saved cursor. */
  lemma CrashRestartsAtCursor(r: Run<State, Event>, i: nat)
    requires IsRun(r, Init, Next) && i < |r.events| && (r.events[i].Crashes? || r.events[i].CrashesInStep?)
    ensures var s := r.states[i + 1]; BatchOf(s) == Page(s.log, s.out.cursor, s.size) && s.task.failures == 0
  {
    assert Next(r.states[i], r.events[i], r.states[i + 1]);
  }

  // ---------- catching up ----------

  /** How many batches of at most `size` rows `n` rows make. */
  function Batches(n: nat, size: nat): nat
    requires size > 0
  {
    if n == 0 then 0 else 1 + Batches(if n <= size then 0 else n - size, size)
  }

  lemma {:induction false} BatchesRoundsUp(n: nat, size: nat)
    requires size > 0
    ensures n <= Batches(n, size) * size < n + size
  {
    if n > 0 {
      var rest := if n <= size then 0 else n - size;
      BatchesRoundsUp(rest, size);
      var b := Batches(rest, size);
      assert (1 + b) * size == b * size + size;
    }
  }

  /** Where the rows nobody has begun to send start: behind the batch being retried, or
      behind the cursor. */
  function Reached(cursor: int, pending: Option<seq<Row>>): int {
    if pending.Some? && pending.value != [] then pending.value[|pending.value| - 1].seqNo else cursor
  }

  /** Steps left until `Idle` once nothing fails any more. */
  function StepsLeft(log: seq<Row>, cursor: int, pending: Option<seq<Row>>, size: nat): nat
    requires size > 0
  {
    Batches(|After(log, Reached(cursor, pending))|, size) + (if pending.Some? then 2 else 1)
  }

  /** What is still to be sent: the batch being retried, and the rows behind it. */
  function Ahead(log: seq<Row>, cursor: int, pending: Option<seq<Row>>): seq<Row> {
    if pending.Some? then pending.value + After(log, Reached(cursor, pending)) else After(log, cursor)
  }

  lemma CutAt(log: seq<Row>, p: nat, n: nat)
    requires p <= n <= |log|
    ensures log[p..] == log[p..n] + log[n..]
  {
  }

  lemma PageLeaves(log: seq<Row>, cursor: int, size: nat)
    requires Ascending(log) && size > 0 && Page(log, cursor, size) != []
    ensures var page := Page(log, cursor, size);
            After(log, cursor) == page + After(log, page[|page| - 1].seqNo)
  {
    var page := Page(log, cursor, size);
    var p, n := Passed(log, cursor), Passed(log, cursor) + |page|;
    PageIsStretch(log, cursor, size);
    assert page[|page| - 1] == log[n - 1];
    PassedAt(log, n);
    AfterIs(log, cursor);
    AfterIs(log, log[n - 1].seqNo);
    CutAt(log, p, n);
  }

  const WELL := Env(true, Acked, Saved, 0)

  lemma IdleStep(log: seq<Row>, o: Outside, t: Task, size: nat)
    requires size > 0 && t.pending.None? && After(log, o.cursor) == []
    ensures Stepped(log, o, t, size, WELL) == (o, Task(None, 0))
    ensures StepsLeft(log, o.cursor, None, size) == 1 && Ahead(log, o.cursor, None) == []
  {
  }

  /** A batch went out, was acknowledged and saved: one step fewer, and its rows received. */
  ghost predicate OneFewer(log: seq<Row>, o: Outside, t: Task, size: nat)
    requires size > 0
  {
    var (o', t') := Stepped(log, o, t, size, WELL);
    && t' == Task(None, 0)
    && StepsLeft(log, o.cursor, t.pending, size) == 1 + StepsLeft(log, o'.cursor, None, size)
    && o'.received + Ahead(log, o'.cursor, None) == o.received + Ahead(log, o.cursor, t.pending)
  }

  lemma WellStep(log: seq<Row>, o: Outside, t: Task, size: nat)
    requires Batch(log, o.cursor, t.pending, size) != []
    ensures var batch := Batch(log, o.cursor, t.pending, size);
            var (o', t') := Stepped(log, o, t, size, WELL);
            t' == Task(None, 0) && o'.received == o.received + batch && o'.cursor == batch[|batch| - 1].seqNo
  {
  }

  lemma Regrouped(x: seq<Row>, y: seq<Row>, z: seq<Row>)
    ensures (x + y) + z == x + (y + z)
  {
  }

  lemma PendingStep(log: seq<Row>, o: Outside, t: Task, size: nat)
    requires size > 0 && t.pending.Some? && t.pending.value != []
    ensures OneFewer(log, o, t, size)
  {
    WellStep(log, o, t, size);
    Regrouped(o.received, t.pending.value, After(log, Reached(o.cursor, t.pending)));
  }

  lemma PageStep(log: seq<Row>, o: Outside, t: Task, size: nat)
    requires Ascending(log) && size > 0 && t.pending.None? && Page(log, o.cursor, size) != []
    ensures OneFewer(log, o, t, size)
  {
    var page := Page(log, o.cursor, size);
    WellStep(log, o, t, size);
    PageLeaves(log, o.cursor, size);
    PageIsOneBatch(log, o.cursor, size);
    Regrouped(o.received, page, After(log, page[|page| - 1].seqNo));
  }

  lemma PageIsOneBatch(log: seq<Row>, cursor: int, size: nat)
    requires Ascending(log) && size > 0 && Page(log, cursor, size) != []
    ensures var page := Page(log, cursor, size);
            Batches(|After(log, cursor)|, size) == 1 + Batches(|After(log, page[|page| - 1].seqNo)|, size)
  {
    PageLeaves(log, cursor, size);
  }

  lemma WellStepTakesOne(log: seq<Row>, o: Outside, t: Task, size: nat)
    requires Ascending(log) && size > 0 && (t.pending.Some? ==> t.pending.value != [])
    requires t.pending.Some? || After(log, o.cursor) != []
    ensures OneFewer(log, o, t, size)
  {
    if t.pending.Some? {
      PendingStep(log, o, t, size);
    } else {
      PageStep(log, o, t, size);
    }
  }

  /** With the log at rest and neither sink nor store failing, the loop is idle after
      one step per batch left, and one more; the receiver has then got the batch that was
      being retried and every row behind it, once each and in order. */
  method CatchUp(d: Delivery, log: seq<Row>) returns (steps: nat)
    requires d.Valid() && Ascending(log)
    modifies d
    ensures d.Valid() && d.pending == None && d.failures == 0
    ensures After(log, d.cursor) == []
    ensures d.received == old(d.received) + old(Ahead(log, d.cursor, d.pending))
    ensures steps == old(StepsLeft(log, d.cursor, d.pending, d.size))
  {
    steps := 0;
    var idle := false;
    ghost var all := StepsLeft(log, d.cursor, d.pending, d.size);
    ghost var left := all;
    ghost var due := d.received + Ahead(log, d.cursor, d.pending);
    while !idle
      invariant d.Valid()
      invariant idle ==> d.pending == None && d.failures == 0 && After(log, d.cursor) == [] && left == 0
      invariant !idle ==> left == StepsLeft(log, d.cursor, d.pending, d.size)
      invariant d.received + Ahead(log, d.cursor, d.pending) == due
      invariant steps + left == all
      decreases !idle, left
    {
      if d.pending.None? && After(log, d.cursor) == [] {
        IdleStep(log, d.Out(), d.Memory(), d.size);
      } else {
        WellStepTakesOne(log, d.Out(), d.Memory(), d.size);
      }
      var step := d.DeliverStep(log, WELL);
      steps, left := steps + 1, left - 1;
      idle := step.Idle?;
    }
    assert Ahead(log, d.cursor, d.pending) == [];
  }
}
