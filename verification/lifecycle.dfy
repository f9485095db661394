/** `reset` and `destroy`. Reset runs in two atomic steps: the synchronous
    clearing up to its first await, and the continuation once every cache
    promise and the undo in flight at that time have settled. Destroy's own
    clearing of the registry runs after its reset has finished. */
module Lifecycle {
  import opened Js
  import opened CommandRegistry
  import opened EngineState

  /** No execution data, no queue, not undoing. */
  predicate ExecutionDataCleared(e: Engine) {
    && e.stack == [] && e.batches == [] && e.undoQueue == []
    && e.pendingUndos == 0 && !e.undoing
  }

  /** Lines 368-376: raise the abort flag and clear the execution data. The
      stack is emptied in place in the source; a value model has no identity
      to preserve. */
  function ResetBegin(e: Engine): (r: Engine)
    ensures ExecutionDataCleared(r) && r.aborting
    ensures r.reg == e.reg && r.nextId == e.nextId
    ensures r.cacheInFlight == e.cacheInFlight && r.undoInFlight == e.undoInFlight
  {
    e.(aborting := true, stack := [], batches := [], undoQueue := [], pendingUndos := 0, undoing := false)
  }

  /** Lines 394-398, reached once the awaited cache promises and undo have
      settled; `hasErrors` says whether any of them rejected. The errors are
      swallowed: the caller of reset never sees them. */
  function ResetEnd(e: Engine, hasErrors: bool): (r: Engine)
    ensures !r.aborting
    ensures hasErrors ==> r.cacheInFlight == {} && !r.undoInFlight
    ensures !hasErrors ==> r.cacheInFlight == e.cacheInFlight && r.undoInFlight == e.undoInFlight
    ensures r.(aborting := e.aborting, cacheInFlight := e.cacheInFlight, undoInFlight := e.undoInFlight) == e
  {
    var e1 := e.(aborting := false);
    if hasErrors then e1.(cacheInFlight := {}, undoInFlight := false) else e1
  }

  /** Lines 405-406: after its reset, destroy drops every definition. */
  function DestroyEnd(e: Engine): (r: Engine)
    ensures r.reg.commands == [] && r.reg.names == map[]
    ensures forall name :: Lookup(r.reg, name).None?
    ensures r.(reg := e.reg) == e
  {
    e.(reg := Empty)
  }

  /** A reset with nothing happening in between leaves a clean engine that
      keeps its definitions and its id counter; if an awaited promise
      rejected, nothing is left in flight either. */
  lemma ResetLeavesCleanState(e: Engine, hasErrors: bool)
    ensures var r := ResetEnd(ResetBegin(e), hasErrors);
            && ExecutionDataCleared(r) && !r.aborting
            && r.reg == e.reg && r.nextId == e.nextId
            && (hasErrors ==> r.cacheInFlight == {} && !r.undoInFlight)
  {
  }

  /** A destroy whose awaits rejected leaves the state of a freshly
      constructed engine, whatever the engine held before, except for the id
      counter, which is never reset. */
  lemma DestroyLeavesFreshState(e: Engine)
    ensures DestroyEnd(ResetEnd(ResetBegin(e), true)) == Initial.(nextId := e.nextId)
  {
  }
}
