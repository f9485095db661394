/** The undo queue can outgrow the command stack. The guard that drops a
    contended request (src/Undojs.js:328) counts stack entries, but a batch
    undo removes several entries at once. A request served after that finds
    the check at the head of `undo()` failing (line 317): it is rejected, and
    the requests behind it are never served. Below, the source's behaviour on
    one concrete run, and the corrected coordinator on the same run. */
module QueueFinding {
  import opened Js
  import opened CommandRegistry
  import opened EngineState
  import opened Execution
  import opened Undo
  import Batching
  import opened Scheduler

  /** The entry of a call of command 0 without params whose execute
      returned `undefined`. */
  function PlainEntry(id: nat): Entry {
    Entry(id, 0, [], Undefined, OrderPlaceholder)
  }

  /** One registered command, four committed calls, the first three recorded
      as one batch. */
  function Scenario(): Engine {
    Engine(Table([Definition(1, Null, 2, None)], map["c" := 0]),
           [PlainEntry(1), PlainEntry(2), PlainEntry(3), PlainEntry(4)],
           [[1, 2, 3]], [], 0, {}, false, false, false, 5)
  }

  /** Every undo callback fulfils. */
  function AllFulfil(i: nat): Settle {
    Fulfilled(Undefined)
  }

  /** The engine after the first undo started: entry 4 popped. */
  function Undoing(queue: seq<nat>): Engine {
    Scenario().(stack := [PlainEntry(1), PlainEntry(2), PlainEntry(3)], undoQueue := queue,
                undoing := true, undoInFlight := true)
  }

  /** The engine once the batch undo started: stack and batches empty. */
  function BatchUndoing(queue: seq<nat>): Engine {
    Scenario().(stack := [], batches := [], undoQueue := queue, undoing := true, undoInFlight := true)
  }

  const SingleFour: Job := SingleJob(Callable(PlainEntry(4), 2))

  const BatchOfThree: Job := BatchJob([Callable(PlainEntry(3), 2), Callable(PlainEntry(2), 2), Callable(PlainEntry(1), 2)])

  lemma FirstUndoStarts()
    ensures BeginUndoAsWritten(Scenario(), User(10)) == Begun(Undoing([]), Started(SingleFour), [])
    ensures BeginUndo(Scenario(), User(10)) == Begun(Undoing([]), Started(SingleFour), [])
  {
    var e := Scenario();
    assert !IsBatchUndo(e.batches, e.stack);
    assert e.stack[..|e.stack| - 1] == [PlainEntry(1), PlainEntry(2), PlainEntry(3)];
  }

  lemma ContendedUndosQueue()
    ensures BeginUndoAsWritten(Undoing([]), User(11)) == Begun(Undoing([11]), Queued, [])
    ensures BeginUndoAsWritten(Undoing([11]), User(12)) == Begun(Undoing([12, 11]), Queued, [])
    ensures BeginUndoAsWritten(Undoing([12, 11]), User(13)) == Begun(Undoing([13, 12, 11]), Queued, [])
    ensures BeginUndo(Undoing([]), User(11)) == Begun(Undoing([11]), Queued, [])
    ensures BeginUndo(Undoing([11]), User(12)) == Begun(Undoing([12, 11]), Queued, [])
    ensures BeginUndo(Undoing([12, 11]), User(13)) == Begun(Undoing([13, 12, 11]), Queued, [])
  {
  }

  /** Serving request 11 pops the whole batch: the as-written coordinator
      keeps two requests for an empty stack, the corrected one releases them. */
  lemma ServingElevenUndoesTheBatch()
    ensures FinishUndoAsWritten(Undoing([13, 12, 11]), SingleFour, AllFulfil)
            == Finished(BatchUndoing([13, 12]), SingleResult(Fulfilled(Undefined)),
                        HandedOff(11, Begun(BatchUndoing([13, 12]), Started(BatchOfThree), [])))
    ensures FinishUndo(Undoing([13, 12, 11]), SingleFour, AllFulfil)
            == Finished(BatchUndoing([]), SingleResult(Fulfilled(Undefined)),
                        HandedOff(11, Begun(BatchUndoing([]), Started(BatchOfThree), [13, 12])))
  {
    var d := Undoing([13, 12]).(undoing := false, undoInFlight := false);
    assert IsBatchUndo(d.batches, d.stack);
    var popped := PopMembers(d.stack, 3, d.reg);
    assert popped.1 == BatchOfThree.members;
    assert BeginUndoAsWritten(d, Drain) == Begun(BatchUndoing([13, 12]), Started(BatchOfThree), []);
  }

  lemma BatchResultHasNoErrors()
    ensures Outcomes(BatchOfThree, AllFulfil) == BatchResult([Fulfilled(Undefined), Fulfilled(Undefined), Fulfilled(Undefined)])
    ensures !HasErrors(Outcomes(BatchOfThree, AllFulfil))
  {
  }

  /** Four `undo()` calls issued together, as the source runs them. The first
      undoes entry 4; the other three are queued, since 1, 2 and 3 requests
      fit three entries. Serving the first of them undoes the batch and
      empties the stack with two requests still queued. Serving the next one
      then rejects it, the last one stays queued with nothing to serve it,
      and any later user undo on the empty stack is rejected instead of
      resolving. */
  lemma AsWrittenQueueOutgrowsStack()
    ensures FinishUndoAsWritten(Undoing([13, 12, 11]), SingleFour, AllFulfil).engine
            == BatchUndoing([13, 12])
    ensures |BatchUndoing([13, 12]).undoQueue| > |BatchUndoing([13, 12]).stack|
    ensures var f2 := FinishUndoAsWritten(BatchUndoing([13, 12]), BatchOfThree, AllFulfil);
            && f2.handoff == HandedOff(12, Begun(f2.engine, TooManyPending, []))
            && f2.engine.undoQueue == [13] && !f2.engine.undoing
            && BeginUndoAsWritten(f2.engine, User(14)).begin == TooManyPending
  {
    FirstUndoStarts();
    ContendedUndosQueue();
    ServingElevenUndoesTheBatch();
    BatchResultHasNoErrors();
  }

  /** The same run with the corrected coordinator: nothing is left queued
      once the batch undo finishes, and a later user undo resolves as a no-op. */
  lemma CorrectedReleasesSurplus()
    ensures FinishUndo(Undoing([13, 12, 11]), SingleFour, AllFulfil).engine == BatchUndoing([])
    ensures var f2 := FinishUndo(BatchUndoing([]), BatchOfThree, AllFulfil);
            && f2.handoff.NoHandoff? && !f2.engine.undoing
            && BeginUndo(f2.engine, User(14)).begin == NothingToUndo
  {
    ServingElevenUndoesTheBatch();
    BatchResultHasNoErrors();
  }

  // ---------------------------------------------------------------- from a fresh engine

  /** Command "c": execute and undo callbacks, no cache, no context. */
  const CommandC: CommandDef := CommandDef(Some("c"), Fn(1), Fn(2), Undefined, Undefined)

  const ItemC: Batching.BatchItem := Batching.Member(Some("c"), Undefined)

  /** Command "c" has no cache, so no cache callback is ever called. */
  function NoCache(i: nat): CacheCall {
    CacheReturned(Undefined)
  }

  /** The execute callback returns `undefined`. */
  function Commits(id: nat): Event {
    CacheSettles(id, Fulfilled(Undefined), ExecReturned(Undefined))
  }

  /** Register "c", record a batch of three calls of it, let them commit in
      order, then execute "c" once more and let that commit. */
  function ScenarioEvents(): seq<Event> {
    [DoRegister(Some(CommandC)),
     DoRecordBatch(Batching.Items([ItemC, ItemC, ItemC]), NoCache),
     Commits(1), Commits(2), Commits(3),
     DoExecute(ByName("c"), Undefined, CacheReturned(Undefined)),
     Commits(4)]
  }

  /** A batch member waiting at `await cached`. */
  function BatchCall(id: nat): Invocation {
    Invocation(id, 0, [], Undefined, Some(0), OrderPlaceholder)
  }

  function Registered(): Engine {
    Initial.(reg := Scenario().reg)
  }

  /** After `recordBatch`: three calls waiting for their (absent) caches. */
  function BatchStarted(): System {
    Init.(engine := Registered().(batches := [[]], cacheInFlight := {1, 2, 3}, nextId := 4),
          awaitingCache := map[1 := BatchCall(1), 2 := BatchCall(2), 3 := BatchCall(3)])
  }

  /** After the first batch member committed. */
  function FirstCommitted(): System {
    Init.(engine := Registered().(stack := [PlainEntry(1)], batches := [[1]], cacheInFlight := {2, 3}, nextId := 4),
          awaitingCache := map[2 := BatchCall(2), 3 := BatchCall(3)])
  }

  /** After the first two batch members committed. */
  function SecondCommitted(): System {
    Init.(engine := Registered().(stack := [PlainEntry(1), PlainEntry(2)], batches := [[1, 2]],
                                  cacheInFlight := {3}, nextId := 4),
          awaitingCache := map[3 := BatchCall(3)])
  }

  /** After the three batch members committed. */
  function BatchCommitted(): System {
    Init.(engine := Scenario().(stack := [PlainEntry(1), PlainEntry(2), PlainEntry(3)], nextId := 4))
  }

  /** After `execute("c")` reached `await cached`. */
  function FourthStarted(): System {
    BatchCommitted().(engine := BatchCommitted().engine.(nextId := 5, cacheInFlight := {4}),
                      awaitingCache := map[4 := Invocation(4, 0, [], Null, None, OrderPlaceholder)])
  }

  lemma RegisterStep(c: Coordinator)
    ensures Step(c, Init, DoRegister(Some(CommandC))) == Init.(engine := Registered())
  {
  }

  lemma RecordBatchStep(c: Coordinator)
    ensures Step(c, Init.(engine := Registered()), ScenarioEvents()[1]) == BatchStarted()
  {
    var e := Registered().(batches := [[]]);
    var m1 := Batching.StartMember(e, ItemC, 0, NoCache(0));
    assert m1 == StartStep(e.(nextId := 2, cacheInFlight := {1}), Running(BatchCall(1)));
    var m2 := Batching.StartMember(m1.engine, ItemC, 0, NoCache(1));
    assert m2 == StartStep(e.(nextId := 3, cacheInFlight := {1, 2}), Running(BatchCall(2)));
    var m3 := Batching.StartMember(m2.engine, ItemC, 0, NoCache(2));
    assert m3 == StartStep(e.(nextId := 4, cacheInFlight := {1, 2, 3}), Running(BatchCall(3)));
    var items := [ItemC, ItemC, ItemC];
    var r3 := Batching.StartMembers(m3.engine, items, 3, 0, NoCache);
    assert r3 == Batching.Recorded(m3.engine, [], None);
    var r2 := Batching.StartMembers(m2.engine, items, 2, 0, NoCache);
    assert r2 == Batching.Recorded(m3.engine, [m3.started], None);
    var r1 := Batching.StartMembers(m1.engine, items, 1, 0, NoCache);
    assert r1 == Batching.Recorded(m3.engine, [m2.started, m3.started], None);
    var r0 := Batching.StartMembers(e, items, 0, 0, NoCache);
    assert r0 == Batching.Recorded(m3.engine, [m1.started, m2.started, m3.started], None);
    assert Registered().batches + [[]] == e.batches;
    assert Batching.RecordBatch(Registered(), Batching.Items(items), NoCache) == r0;
    var started := [m1.started, m2.started, m3.started];
    assert started[1..] == [m2.started, m3.started] && started[1..][1..] == [m3.started];
    calc {
      Track(map[], started);
      Track(map[1 := BatchCall(1)], [m2.started, m3.started]);
      Track(map[1 := BatchCall(1), 2 := BatchCall(2)], [m3.started]);
      Track(map[1 := BatchCall(1), 2 := BatchCall(2), 3 := BatchCall(3)], []);
    }
  }

  lemma FirstCommitStep(c: Coordinator)
    ensures Step(c, BatchStarted(), Commits(1)) == FirstCommitted()
  {
    assert [] + [1] == [1];
  }

  lemma SecondCommitStep(c: Coordinator)
    ensures Step(c, FirstCommitted(), Commits(2)) == SecondCommitted()
  {
    assert [1] + [2] == [1, 2];
  }

  lemma ThirdCommitStep(c: Coordinator)
    ensures Step(c, SecondCommitted(), Commits(3)) == BatchCommitted()
  {
    assert [1, 2] + [3] == [1, 2, 3];
  }

  lemma ExecuteStep(c: Coordinator)
    ensures Step(c, BatchCommitted(), ScenarioEvents()[5]) == FourthStarted()
  {
  }

  lemma LastCommitStep(c: Coordinator)
    ensures Step(c, FourthStarted(), Commits(4)) == Init.(engine := Scenario())
  {
  }

  /** Registering "c", recording the batch and committing its first member. */
  lemma BatchOpens(c: Coordinator)
    ensures Run(c, Init, ScenarioEvents()[..3]) == FirstCommitted()
  {
    var evs := ScenarioEvents()[..3];
    var states := [Init, Init.(engine := Registered()), BatchStarted(), FirstCommitted()];
    forall k | 0 <= k < |evs|
      ensures Steps(c)(states[k], evs[k]) == states[k + 1]
    {
      if k == 0 { RegisterStep(c); }
      else if k == 1 { RecordBatchStep(c); }
      else { FirstCommitStep(c); }
    }
    RunThrough(Steps(c), states, evs);
  }

  /** The other two batch members commit, then the fourth call runs and commits. */
  lemma BatchClosesAndFourthCommits(c: Coordinator)
    ensures Run(c, FirstCommitted(), ScenarioEvents()[3..]) == Init.(engine := Scenario())
  {
    var evs := ScenarioEvents()[3..];
    var states := [FirstCommitted(), SecondCommitted(), BatchCommitted(), FourthStarted(), Init.(engine := Scenario())];
    forall k | 0 <= k < |evs|
      ensures Steps(c)(states[k], evs[k]) == states[k + 1]
    {
      if k == 0 { SecondCommitStep(c); }
      else if k == 1 { ThirdCommitStep(c); }
      else if k == 2 { ExecuteStep(c); }
      else { LastCommitStep(c); }
    }
    RunThrough(Steps(c), states, evs);
  }

  /** The finding's start state is reachable: under either coordinator, the
      events of `ScenarioEvents` take a fresh engine to `Scenario()`, with
      nothing left in flight. */
  lemma ScenarioIsReachable(c: Coordinator)
    ensures Run(c, Init, ScenarioEvents()) == Init.(engine := Scenario())
  {
    var evs := ScenarioEvents();
    BatchOpens(c);
    BatchClosesAndFourthCommits(c);
    assert evs == evs[..3] + evs[3..];
    RunJoin(Steps(c), Init, evs[..3], evs[3..], FirstCommitted(), Init.(engine := Scenario()));
  }

  // ---------------------------------------------------------------- the whole run

  /** Four `undo()` calls issued together, then the two undo jobs settle. */
  function UndoEvents(): seq<Event> {
    [DoUndo(10), DoUndo(11), DoUndo(12), DoUndo(13), UndoSettles(0, AllFulfil), UndoSettles(1, AllFulfil)]
  }

  /** Request 13 queued on an empty stack, with no undo running to serve it. */
  function Stranded(): Engine {
    Scenario().(stack := [], batches := [], undoQueue := [13])
  }

  /** The first undo's job running, with `queue` waiting behind it. */
  function FirstJobRunning(queue: seq<nat>): System {
    Init.(engine := Undoing(queue), jobs := map[0 := SingleFour], nextJob := 1)
  }

  /** The batch undo's job running, with `queue` waiting behind it. */
  function BatchJobRunning(queue: seq<nat>): System {
    Init.(engine := BatchUndoing(queue), jobs := map[1 := BatchOfThree], nextJob := 2)
  }

  lemma UndoCallsStep(c: Coordinator)
    ensures Step(c, Init.(engine := Scenario()), DoUndo(10)) == FirstJobRunning([])
    ensures Step(c, FirstJobRunning([]), DoUndo(11)) == FirstJobRunning([11])
    ensures Step(c, FirstJobRunning([11]), DoUndo(12)) == FirstJobRunning([12, 11])
    ensures Step(c, FirstJobRunning([12, 11]), DoUndo(13)) == FirstJobRunning([13, 12, 11])
  {
    FirstUndoStarts();
    ContendedUndosQueue();
  }

  lemma AsWrittenSettlesStep()
    ensures Step(AsWritten, FirstJobRunning([13, 12, 11]), UndoSettles(0, AllFulfil)) == BatchJobRunning([13, 12])
    ensures Step(AsWritten, BatchJobRunning([13, 12]), UndoSettles(1, AllFulfil))
            == Init.(engine := Stranded(), nextJob := 2)
  {
    ServingElevenUndoesTheBatch();
    AsWrittenQueueOutgrowsStack();
    var f2 := FinishUndoAsWritten(BatchUndoing([13, 12]), BatchOfThree, AllFulfil);
    assert f2.engine == Stranded();
  }

  lemma CorrectedSettlesStep()
    ensures Step(Corrected, FirstJobRunning([13, 12, 11]), UndoSettles(0, AllFulfil)) == BatchJobRunning([])
    ensures Step(Corrected, BatchJobRunning([]), UndoSettles(1, AllFulfil))
            == Init.(engine := Scenario().(stack := [], batches := []), nextJob := 2)
  {
    ServingElevenUndoesTheBatch();
    BatchResultHasNoErrors();
  }

  /** The run from the fresh engine through the four undo calls. */
  lemma UndosQueue(c: Coordinator)
    ensures Run(c, Init, ScenarioEvents() + UndoEvents()[..4]) == FirstJobRunning([13, 12, 11])
  {
    var evs := UndoEvents()[..4];
    var states := [Init.(engine := Scenario()), FirstJobRunning([]), FirstJobRunning([11]),
                   FirstJobRunning([12, 11]), FirstJobRunning([13, 12, 11])];
    UndoCallsStep(c);
    forall k | 0 <= k < |evs|
      ensures Steps(c)(states[k], evs[k]) == states[k + 1]
    {
    }
    RunThrough(Steps(c), states, evs);
    ScenarioIsReachable(c);
    RunJoin(Steps(c), Init, ScenarioEvents(), evs, states[0], states[4]);
  }

  /** The source's coordinator, run from a fresh engine: after the four
      undo calls and their two jobs, request 13 is left queued on an empty
      stack with no undo job running, so nothing will ever serve it, and the
      next user undo is rejected for too many pending requests. */
  lemma AsWrittenRunStrandsARequest()
    ensures var s := Run(AsWritten, Init, ScenarioEvents() + UndoEvents());
            && s.engine.stack == [] && s.engine.undoQueue == [13]
            && !s.engine.undoing && s.jobs == map[]
            && BeginUndoAsWritten(s.engine, User(14)).begin == TooManyPending
  {
    var evs := UndoEvents()[4..];
    var states := [FirstJobRunning([13, 12, 11]), BatchJobRunning([13, 12]), Init.(engine := Stranded(), nextJob := 2)];
    AsWrittenSettlesStep();
    forall k | 0 <= k < |evs|
      ensures Steps(AsWritten)(states[k], evs[k]) == states[k + 1]
    {
    }
    RunThrough(Steps(AsWritten), states, evs);
    UndosQueue(AsWritten);
    assert ScenarioEvents() + UndoEvents() == (ScenarioEvents() + UndoEvents()[..4]) + evs;
    RunJoin(Steps(AsWritten), Init, ScenarioEvents() + UndoEvents()[..4], evs, states[0], states[2]);
  }

  /** The corrected coordinator on the same run: nothing is left queued or
      running, and the next user undo resolves as a no-op. */
  lemma CorrectedRunReleasesSurplus()
    ensures var s := Run(Corrected, Init, ScenarioEvents() + UndoEvents());
            && s.engine.stack == [] && s.engine.undoQueue == []
            && !s.engine.undoing && s.jobs == map[]
            && BeginUndo(s.engine, User(14)).begin == NothingToUndo
  {
    var evs := UndoEvents()[4..];
    var states := [FirstJobRunning([13, 12, 11]), BatchJobRunning([]),
                   Init.(engine := Scenario().(stack := [], batches := []), nextJob := 2)];
    CorrectedSettlesStep();
    forall k | 0 <= k < |evs|
      ensures Steps(Corrected)(states[k], evs[k]) == states[k + 1]
    {
    }
    RunThrough(Steps(Corrected), states, evs);
    UndosQueue(Corrected);
    assert ScenarioEvents() + UndoEvents() == (ScenarioEvents() + UndoEvents()[..4]) + evs;
    RunJoin(Steps(Corrected), Init, ScenarioEvents() + UndoEvents()[..4], evs, states[0], states[2]);
  }
}
