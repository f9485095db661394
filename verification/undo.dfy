/** The undo coordinator. `BeginUndo` is the synchronous part of `undo()`
    up to its first `await`: the queue decision, the batch-or-single choice
    and the pops. `FinishUndo` is the continuation once the undo callbacks
    settled: error handling, leaving the undoing state, and handing off to
    the oldest queued request, whose own pops run in the same atomic step.

    The `AsWritten` members follow the source exactly; `BeginUndo` and
    `FinishUndo` add one correction (see `KeepOldest`). The scheduler runs
    either pair, as its `Coordinator` parameter selects. */
module Undo {
  import opened Js
  import opened CommandRegistry
  import opened EngineState

  /** A request from a user (carrying the token it is queued under) or the
      drain of the queue (`undo(false)`). */
  datatype Caller = User(token: nat) | Drain

  /** One undo callback to run: the popped entry and its command's undo
      function; or nothing callable, because the pop found the stack empty or
      the entry's command is no longer registered. The runtime then throws a
      TypeError, which the engine catches like any other undo failure. */
  datatype Member = Callable(entry: Entry, undo: nat) | Uncallable

  datatype Job = SingleJob(member: Member) | BatchJob(members: seq<Member>)

  datatype Begin =
    | TooManyPending   // the check at the head of undo() threw
    | NothingToUndo    // empty stack: resolved with undefined
    | Dropped          // contended and nothing left for it: resolved with undefined
    | Queued           // contended: waits in the queue
    | Started(job: Job)

  /** `released` are queued requests the corrected coordinator resolves as
      no-ops because nothing is left for them. */
  datatype Begun = Begun(engine: Engine, begin: Begin, released: seq<nat>)

  datatype UndoResult = SingleResult(settle: Settle) | BatchResult(settles: seq<Settle>)

  /** The queued request served after an undo finished, and how it began. */
  datatype Handoff = NoHandoff | HandedOff(token: nat, begun: Begun)

  datatype Finished = Finished(engine: Engine, result: UndoResult, handoff: Handoff)

  // ---------------------------------------------------------------- queue

  /** A new request goes to the front of the queue. */
  function Enqueue(q: seq<nat>, token: nat): seq<nat> {
    [token] + q
  }

  /** The request served next: the one at the back of the queue. */
  function Next(q: seq<nat>): nat
    requires |q| > 0
  {
    q[|q| - 1]
  }

  /** The queue once its back request is taken off. */
  function Dequeue(q: seq<nat>): seq<nat>
    requires |q| > 0
  {
    q[..|q| - 1]
  }

  /** The order in which the requests of a queue are served when it is
      drained: the last element first. */
  function ServiceOrder(q: seq<nat>): (r: seq<nat>)
    decreases |q|
    ensures |r| == |q|
    ensures forall i :: 0 <= i < |q| ==> r[i] == q[|q| - 1 - i]
  {
    if |q| == 0 then [] else [Next(q)] + ServiceOrder(Dequeue(q))
  }

  /** Requests arriving in the order of `tokens`. */
  function EnqueueAll(q: seq<nat>, tokens: seq<nat>): seq<nat>
    decreases |tokens|
  {
    if |tokens| == 0 then q else EnqueueAll(Enqueue(q, tokens[0]), tokens[1..])
  }

  lemma {:induction false} ServiceAfterEnqueue(q: seq<nat>, token: nat)
    ensures ServiceOrder(Enqueue(q, token)) == ServiceOrder(q) + [token]
  {
    var lhs := ServiceOrder(Enqueue(q, token));
    var rhs := ServiceOrder(q) + [token];
    assert |lhs| == |rhs|;
    forall i | 0 <= i < |lhs|
      ensures lhs[i] == rhs[i]
    {
      if i < |q| {
        assert Enqueue(q, token)[|q| - i] == q[|q| - 1 - i];
      }
    }
  }

  /** Unshift at the front and pop at the back make the queue first-in,
      first-out: requests are served in the order they arrived, after those
      already waiting. */
  lemma {:induction false} QueueIsFifo(q: seq<nat>, tokens: seq<nat>)
    ensures ServiceOrder(EnqueueAll(q, tokens)) == ServiceOrder(q) + tokens
    decreases |tokens|
  {
    if |tokens| > 0 {
      ServiceAfterEnqueue(q, tokens[0]);
      QueueIsFifo(Enqueue(q, tokens[0]), tokens[1..]);
      assert [tokens[0]] + tokens[1..] == tokens;
    }
  }

  /** The correction: keep only the `n` oldest requests. The others are the
      most recent arrivals. */
  function KeepOldest(q: seq<nat>, n: nat): seq<nat>
    requires n <= |q|
  {
    q[|q| - n..]
  }

  /** Dropping requests with `KeepOldest` only cuts the tail of the service
      order: the requests kept are served exactly as they would have been. */
  lemma {:induction false} KeepOldestServesFirst(q: seq<nat>, n: nat)
    requires n <= |q|
    ensures ServiceOrder(KeepOldest(q, n)) == ServiceOrder(q)[..n]
  {
    var kept := KeepOldest(q, n);
    var lhs := ServiceOrder(kept);
    var rhs := ServiceOrder(q)[..n];
    assert |kept| == n;
    forall i | 0 <= i < n
      ensures lhs[i] == rhs[i]
    {
      assert kept[n - 1 - i] == q[|q| - 1 - i];
    }
  }

  // ---------------------------------------------------------------- pops

  function MemberOf(entry: Entry, reg: Registry): Member {
    if entry.index < |reg.commands| then Callable(entry, reg.commands[entry.index].undo) else Uncallable
  }

  /** The most recently opened batch, or no ids when none was opened
      (src/Undojs.js line 306). */
  function LastBatch(batches: seq<seq<nat>>): seq<nat> {
    if |batches| == 0 then [] else batches[|batches| - 1]
  }

  /** `_checkIsUndoOfBatchCommand`: the last batch holds the top entry's id. */
  predicate IsBatchUndo(batches: seq<seq<nat>>, stack: seq<Entry>)
    requires |stack| > 0
  {
    Top(stack).id in LastBatch(batches)
  }

  /** `k` pops: the stack that remains and one member per pop, top first.
      Pops beyond the bottom yield nothing callable. */
  function PopMembers(stack: seq<Entry>, k: nat, reg: Registry): (r: (seq<Entry>, seq<Member>))
    decreases k
    ensures |r.1| == k
    ensures k <= |stack| ==> r.0 == stack[..|stack| - k]
    ensures k > |stack| ==> r.0 == []
    ensures forall i :: 0 <= i < k ==>
              r.1[i] == (if i < |stack| then MemberOf(stack[|stack| - 1 - i], reg) else Uncallable)
  {
    if k == 0 then (stack, [])
    else if |stack| == 0 then
      var rest := PopMembers(stack, k - 1, reg);
      (rest.0, [Uncallable] + rest.1)
    else
      var rest := PopMembers(stack[..|stack| - 1], k - 1, reg);
      (rest.0, [MemberOf(Top(stack), reg)] + rest.1)
  }

  /** The effect of starting an undo job on everything but the queue: the
      undoing state is entered, and either the top entry is popped (single)
      or the last batch and as many entries as it has ids (batch). */
  ghost predicate Popped(e: Engine, e': Engine, job: Job)
    requires |e.stack| > 0
  {
    && e'.undoing && e'.undoInFlight
    && e'.reg == e.reg && e'.nextId == e.nextId && e'.cacheInFlight == e.cacheInFlight
    && e'.aborting == e.aborting && e'.pendingUndos == e.pendingUndos
    && (job.BatchJob? <==> IsBatchUndo(e.batches, e.stack))
    && (job.SingleJob? ==>
          && e'.stack == e.stack[..|e.stack| - 1]
          && e'.batches == e.batches
          && job.member == MemberOf(Top(e.stack), e.reg))
    && (job.BatchJob? ==>
          var k := |LastBatch(e.batches)|;
          && |e.batches| > 0
          && e'.batches == e.batches[..|e.batches| - 1]
          && |job.members| == k
          && (k <= |e.stack| ==> e'.stack == e.stack[..|e.stack| - k])
          && (k > |e.stack| ==> e'.stack == [])
          && (forall i :: 0 <= i < k ==>
                job.members[i] == (if i < |e.stack| then MemberOf(e.stack[|e.stack| - 1 - i], e.reg)
                                   else Uncallable)))
  }

  /** Lines 335-345 up to the first await, including the synchronous pops of
      `_undoSingleCommand` and `_undoBatchCommand`. */
  function StartUndo(e: Engine): (r: Begun)
    requires |e.stack| > 0
    ensures r.begin.Started? && r.released == [] && r.engine.undoQueue == e.undoQueue
    ensures Popped(e, r.engine, r.begin.job)
    ensures |r.engine.stack| < |e.stack| && r.engine.stack == e.stack[..|r.engine.stack|]
  {
    var e1 := e.(undoing := true, undoInFlight := true);
    if IsBatchUndo(e.batches, e.stack) then
      var popped := PopMembers(e.stack, |LastBatch(e.batches)|, e.reg);
      Begun(e1.(stack := popped.0, batches := e.batches[..|e.batches| - 1]), Started(BatchJob(popped.1)), [])
    else
      Begun(e1.(stack := e.stack[..|e.stack| - 1]), Started(SingleJob(MemberOf(Top(e.stack), e.reg))), [])
  }

  /** `undo(isUserCall)` up to its first await, exactly as the source has it. */
  function BeginUndoAsWritten(e: Engine, caller: Caller): (r: Begun)
    ensures r.released == []
    ensures r.begin == TooManyPending <==> |e.undoQueue| > |e.stack|
    ensures r.begin == NothingToUndo <==> |e.undoQueue| <= |e.stack| == 0
    ensures r.begin == Dropped <==>
              && |e.undoQueue| <= |e.stack| && |e.stack| > 0
              && e.undoing && caller.User? && |e.undoQueue| + 1 > |e.stack|
    ensures r.begin == Queued <==>
              && |e.stack| > 0 && e.undoing && caller.User? && |e.undoQueue| + 1 <= |e.stack|
    ensures r.begin in {TooManyPending, NothingToUndo, Dropped} ==> r.engine == e
    ensures r.begin == Queued ==> r.engine == e.(undoQueue := Enqueue(e.undoQueue, caller.token))
    ensures r.begin.Started? <==>
              |e.undoQueue| <= |e.stack| && |e.stack| > 0 && !(e.undoing && caller.User?)
    ensures r.begin.Started? ==>
              |e.stack| > 0 && Popped(e, r.engine, r.begin.job) && r.engine.undoQueue == e.undoQueue
    // Beginning an undo only ever pops entries off the top.
    ensures |r.engine.stack| <= |e.stack| && r.engine.stack == e.stack[..|r.engine.stack|]
    ensures r.engine.reg == e.reg && r.engine.nextId == e.nextId
  {
    if |e.undoQueue| > |e.stack| then Begun(e, TooManyPending, [])
    else if |e.stack| == 0 then Begun(e, NothingToUndo, [])
    else if e.undoing && caller.User? then
      if |e.undoQueue| + 1 > |e.stack| then Begun(e, Dropped, [])
      else Begun(e.(undoQueue := Enqueue(e.undoQueue, caller.token)), Queued, [])
    else StartUndo(e)
  }

  /** `undo(isUserCall)` up to its first await, corrected: once the pops have
      run, queued requests beyond the number of entries left are released as
      no-ops, newest first, so that the queue never outgrows the stack. */
  function BeginUndo(e: Engine, caller: Caller): (r: Begun)
    // Every branch but the trim is the source's.
    ensures !r.begin.Started? ==> r == BeginUndoAsWritten(e, caller)
    ensures r.begin.Started? <==> BeginUndoAsWritten(e, caller).begin.Started?
    ensures r.begin.Started? ==>
              && r.begin == BeginUndoAsWritten(e, caller).begin
              && r.engine.(undoQueue := e.undoQueue) == BeginUndoAsWritten(e, caller).engine
    // The released requests are the newest ones, and exactly the surplus.
    ensures r.released + r.engine.undoQueue == BeginUndoAsWritten(e, caller).engine.undoQueue
    ensures r.begin.Started? ==> |r.engine.undoQueue| == Min(|e.undoQueue|, |r.engine.stack|)
    // The property the source relies on (its line 317 check "should never happen").
    ensures |e.undoQueue| <= |e.stack| ==>
              && r.begin != TooManyPending
              && |r.engine.undoQueue| <= |r.engine.stack|
    ensures |r.engine.stack| <= |e.stack| && r.engine.stack == e.stack[..|r.engine.stack|]
    ensures r.engine.reg == e.reg && r.engine.nextId == e.nextId
  {
    var b := BeginUndoAsWritten(e, caller);
    var q := b.engine.undoQueue;
    var n := |b.engine.stack|;
    if b.begin.Started? && |q| > n then
      assert q[..|q| - n] + KeepOldest(q, n) == q;
      Begun(b.engine.(undoQueue := KeepOldest(q, n)), b.begin, q[..|q| - n])
    else b
  }

  function Min(a: nat, b: nat): nat {
    if a <= b then a else b
  }

  // ---------------------------------------------------------------- finish

  function MemberSettle(m: Member, s: Settle): Settle {
    if m.Callable? then s else Rejected(RuntimeTypeError)
  }

  /** The response of a job, given how each member's undo callback settled
      (`outcome(i)` for the i-th pop): a single settlement, or the same-length
      array of values and captured errors in pop order. */
  function Outcomes(job: Job, outcome: nat -> Settle): (r: UndoResult)
    ensures job.SingleJob? ==> r == SingleResult(MemberSettle(job.member, outcome(0)))
    ensures job.BatchJob? ==>
              && r.BatchResult? && |r.settles| == |job.members|
              && forall i :: 0 <= i < |job.members| ==> r.settles[i] == MemberSettle(job.members[i], outcome(i))
  {
    match job
    case SingleJob(m) => SingleResult(MemberSettle(m, outcome(0)))
    case BatchJob(ms) => BatchResult(seq(|ms|, i requires 0 <= i < |ms| => MemberSettle(ms[i], outcome(i))))
  }

  predicate HasErrors(r: UndoResult) {
    match r
    case SingleResult(s) => s.Rejected?
    case BatchResult(ss) => exists i :: 0 <= i < |ss| && ss[i].Rejected?
  }

  /** Lines 349-355: an error drops every queued request; the undoing state is left. */
  function Conclude(e: Engine, result: UndoResult): Engine {
    e.(undoQueue := if HasErrors(result) then [] else e.undoQueue, undoInFlight := false, undoing := false)
  }

  /** The continuation of `undo()` once its callbacks settled, exactly as the
      source has it: the hand-off to the oldest queued request runs
      `undo(false)` synchronously. */
  function FinishUndoAsWritten(e: Engine, job: Job, outcome: nat -> Settle): (r: Finished)
    ensures r.result == Outcomes(job, outcome)
    ensures r.handoff.HandedOff? <==> !HasErrors(r.result) && |e.undoQueue| > 0
    ensures r.handoff.HandedOff? ==>
              && r.handoff.token == Next(e.undoQueue)
              && r.handoff.begun == BeginUndoAsWritten(Conclude(e, r.result).(undoQueue := Dequeue(e.undoQueue)), Drain)
              && r.engine == r.handoff.begun.engine
    ensures r.handoff.NoHandoff? ==> r.engine == Conclude(e, r.result)
    // Finishing only ever shortens the stack from the top.
    ensures |r.engine.stack| <= |e.stack| && r.engine.stack == e.stack[..|r.engine.stack|]
    ensures r.engine.reg == e.reg && r.engine.nextId == e.nextId
    ensures r.engine.cacheInFlight == e.cacheInFlight && r.engine.aborting == e.aborting
  {
    var result := Outcomes(job, outcome);
    var e1 := Conclude(e, result);
    if |e1.undoQueue| > 0 then
      var b := BeginUndoAsWritten(e1.(undoQueue := Dequeue(e1.undoQueue)), Drain);
      Finished(b.engine, result, HandedOff(Next(e1.undoQueue), b))
    else Finished(e1, result, NoHandoff)
  }

  /** The continuation of `undo()` once its callbacks settled, with the
      corrected hand-off. */
  function FinishUndo(e: Engine, job: Job, outcome: nat -> Settle): (r: Finished)
    ensures r.result == Outcomes(job, outcome)
    // Failure drops every queued request and leaves the undoing state.
    ensures HasErrors(r.result) ==>
              && r.handoff.NoHandoff? && r.engine.undoQueue == [] && !r.engine.undoing
    // Without a queued request the undoing state is left and nothing else moves.
    ensures r.handoff.NoHandoff? ==>
              && !r.engine.undoing && !r.engine.undoInFlight && r.engine.undoQueue == []
              && r.engine.stack == e.stack && r.engine.batches == e.batches
    // Otherwise the oldest request is served next.
    ensures r.handoff.HandedOff? <==> !HasErrors(r.result) && |e.undoQueue| > 0
    ensures r.handoff.HandedOff? ==>
              && r.handoff.token == Next(e.undoQueue)
              && r.handoff.begun == BeginUndo(Conclude(e, r.result).(undoQueue := Dequeue(e.undoQueue)), Drain)
              && r.engine == r.handoff.begun.engine
    // While the queue fits the stack, a served request always has something to undo.
    ensures |e.undoQueue| <= |e.stack| ==>
              && |r.engine.undoQueue| <= |r.engine.stack|
              && (r.handoff.HandedOff? ==> r.handoff.begun.begin.Started?)
    // Finishing only ever shortens the stack from the top.
    ensures |r.engine.stack| <= |e.stack| && r.engine.stack == e.stack[..|r.engine.stack|]
    ensures r.engine.reg == e.reg && r.engine.nextId == e.nextId
    ensures r.engine.cacheInFlight == e.cacheInFlight && r.engine.aborting == e.aborting
  {
    var result := Outcomes(job, outcome);
    var e1 := Conclude(e, result);
    if |e1.undoQueue| > 0 then
      var b := BeginUndo(e1.(undoQueue := Dequeue(e1.undoQueue)), Drain);
      Finished(b.engine, result, HandedOff(Next(e1.undoQueue), b))
    else Finished(e1, result, NoHandoff)
  }

  // ---------------------------------------------------------------- coordinators

  /** Which undo coordinator runs: the source's own (`BeginUndoAsWritten`,
      `FinishUndoAsWritten`), or the one that releases surplus queued
      requests (`BeginUndo`, `FinishUndo`). */
  datatype Coordinator = AsWritten | Corrected

  function BeginWith(c: Coordinator, e: Engine, caller: Caller): Begun {
    if c.AsWritten? then BeginUndoAsWritten(e, caller) else BeginUndo(e, caller)
  }

  function FinishWith(c: Coordinator, e: Engine, job: Job, outcome: nat -> Settle): Finished {
    if c.AsWritten? then FinishUndoAsWritten(e, job, outcome) else FinishUndo(e, job, outcome)
  }

  // ---------------------------------------------------------------- order

  /** One user undo run to its end under coordinator `c`, with the callbacks
      settling as `outcome` says: the member undone and the engine after the
      finish, if the call started a single undo. */
  function UndoTurn(c: Coordinator, e: Engine, outcome: nat -> Settle): Option<(Member, Engine)> {
    var b := BeginWith(c, e, User(0));
    if b.begin.Started? && b.begin.job.SingleJob? then
      Some((b.begin.job.member, FinishWith(c, b.engine, b.begin.job, outcome).engine))
    else None
  }

  /** The members undone by `n` turns in a row, starting with turn number
      `k`, and the engine they leave. Turn `k` on engine `e` is `turn(k, e)`:
      the member it undid and the engine it left, or nothing when it did not
      undo a single entry. */
  function Repeat(turn: (nat, Engine) -> Option<(Member, Engine)>, e: Engine, k: nat, n: nat): (seq<Member>, Engine)
    decreases n
  {
    if n == 0 then ([], e)
    else
      match turn(k, e)
      case None => ([], e)
      case Some(t) =>
        var rest := Repeat(turn, t.1, k + 1, n - 1);
        ([t.0] + rest.0, rest.1)
  }

  /** `n` user undos in a row under coordinator `c`, each finishing before
      the next is called; the callbacks of the `i`-th undo settle as
      `outcomes(i)` says. */
  function SerialUndos(c: Coordinator, e: Engine, n: nat, outcomes: nat -> (nat -> Settle)): (seq<Member>, Engine) {
    Repeat(Turns(c, outcomes), e, 0, n)
  }

  /** `UndoTurn` as a turn function: turn `k` settles as `outcomes(k)`. */
  function Turns(c: Coordinator, outcomes: nat -> (nat -> Settle)): (nat, Engine) -> Option<(Member, Engine)> {
    (k: nat, e: Engine) => UndoTurn(c, e, outcomes(k))
  }

  /** No batch, no undo running, nothing queued. */
  predicate Quiet(e: Engine) {
    e.batches == [] && !e.undoing && e.undoQueue == []
  }

  /** The engine a completed single undo leaves behind, when nothing was
      queued and no undo was running: the top entry is gone and no undo is
      in flight. */
  function AfterSingleUndo(e: Engine): Engine
    requires |e.stack| > 0
  {
    e.(stack := e.stack[..|e.stack| - 1], undoInFlight := false)
  }

  /** Turn `k` of `turn` undoes the top entry of a quiet engine and only
      removes it. */
  ghost predicate TakesTop(turn: (nat, Engine) -> Option<(Member, Engine)>, k: nat, e: Engine) {
    Quiet(e) && |e.stack| > 0 ==> turn(k, e) == Some((MemberOf(Top(e.stack), e.reg), AfterSingleUndo(e)))
  }

  /** One undo on a quiet engine, run to its end under either coordinator:
      it undoes the top entry and only removes it, however its callback
      settles. */
  lemma OneUndoPopsTop(c: Coordinator, e: Engine, outcome: nat -> Settle)
    requires Quiet(e) && |e.stack| > 0
    ensures UndoTurn(c, e, outcome) == Some((MemberOf(Top(e.stack), e.reg), AfterSingleUndo(e)))
  {
    var b := BeginWith(c, e, User(0));
    assert !IsBatchUndo(e.batches, e.stack);
    assert b.engine.undoQueue == [];
  }

  /** Turns that each take the top entry undo, in `n` turns, what one pop of
      `n` entries yields, and leave the stack without its top `n` entries. */
  lemma {:induction false} RepeatTakesTopEntries(turn: (nat, Engine) -> Option<(Member, Engine)>, e: Engine, k: nat, n: nat)
    requires forall j, e' :: TakesTop(turn, j, e')
    requires Quiet(e) && n <= |e.stack|
    ensures Repeat(turn, e, k, n).0 == PopMembers(e.stack, n, e.reg).1
    ensures Repeat(turn, e, k, n).1
            == e.(stack := e.stack[..|e.stack| - n], undoInFlight := e.undoInFlight && n == 0)
    decreases n
  {
    if n > 0 {
      assert TakesTop(turn, k, e);
      var a := AfterSingleUndo(e);
      RepeatTakesTopEntries(turn, a, k + 1, n - 1);
      assert a.stack[..|a.stack| - (n - 1)] == e.stack[..|e.stack| - n];
    }
  }

  /** Every user undo on a quiet engine takes its top entry, whatever its
      callbacks do. */
  lemma UndoTurnsTakeTop(c: Coordinator, outcomes: nat -> (nat -> Settle))
    ensures forall k, e :: TakesTop(Turns(c, outcomes), k, e)
  {
    forall k, e | Quiet(e) && |e.stack| > 0
      ensures Turns(c, outcomes)(k, e) == Some((MemberOf(Top(e.stack), e.reg), AfterSingleUndo(e)))
    {
      OneUndoPopsTop(c, e, outcomes(k));
    }
  }

  /** Without batches, undo is last-in, first-out: `n` undos in a row undo
      exactly the members one pop of `n` entries yields (the top `n`
      entries, most recent first; see `PopMembers`), whichever of their
      callbacks fail, and leave exactly the stack below those entries. This
      holds of the source's own coordinator as well as the corrected one. */
  lemma SerialUndosAreLifo(c: Coordinator, e: Engine, n: nat, outcomes: nat -> (nat -> Settle))
    requires Quiet(e) && n <= |e.stack|
    ensures SerialUndos(c, e, n, outcomes).0 == PopMembers(e.stack, n, e.reg).1
    ensures SerialUndos(c, e, n, outcomes).1.stack == e.stack[..|e.stack| - n]
    ensures SerialUndos(c, e, n, outcomes).1
            == e.(stack := e.stack[..|e.stack| - n], undoInFlight := e.undoInFlight && n == 0)
  {
    UndoTurnsTakeTop(c, outcomes);
    RepeatTakesTopEntries(Turns(c, outcomes), e, 0, n);
  }
}
