/** The controller as it runs: its fields change statement by statement between two awaits. Every method is
    proved to do what ClientProtocol says. */
module GameControllerClass {
  import opened Basics
  import opened AttemptEngine
  import opened GameplayLedger
  import opened ClientProtocol

  datatype ControllerError = PendingOperationExists | InvalidAction | StorageFailed

  class GameController {
    var store: Option<Pending>
    var flight: Option<Flight>
    var recovery: Option<Recovery>
    var generation: nat
    var sessionReady: bool
    var status: Status
    var mutation: MutationStatus
    var currentCase: Option<CaseView>
    var displayed: Option<View>

    constructor (store: Option<Pending>)
      ensures Contents() == Page(store)
    {
      this.store, flight, recovery, generation, sessionReady := store, None, None, 0, false;
      status, mutation, currentCase, displayed := Idle, NoMutation, None, None;
    }

    function Contents(): Client
      reads this
    {
      Client(store, flight, recovery, generation, sessionReady, status, mutation, currentCase, displayed)
    }

    method ApplyAttempt(view: View)
      modifies this`displayed, this`currentCase
      ensures Contents() == ClientProtocol.ApplyAttempt(old(Contents()), view)
    {
      displayed := Some(view);
      if currentCase.Some? && currentCase.value.Shown? && currentCase.value.view.attempt == view.attempt {
        currentCase := Some(Shown(view));
      }
    }

    method AcceptCase(shown: CaseView)
      modifies this`currentCase, this`status
      ensures Contents() == ApplyCase(old(Contents()), shown)
    {
      currentCase := Some(shown);
      status := Ready;
    }

    method HandleSessionLoss(works: bool)
      modifies this
      ensures Contents() == LoseSession(old(Contents()), works)
    {
      generation := generation + 1;
      sessionReady := false;
      if works {
        store := None;
      }
      status := SessionLost;
      mutation := NoMutation;
    }

    /** executeMutation up to the request; its own guard is the caller's. */
    method BeginMutation(p: Pending, fetch: Option<nat>)
      requires flight.None?
      modifies this`flight, this`mutation
      ensures Contents() == ExecuteMutation(old(Contents()), p, fetch)
    {
      flight := Some(Flight(p, fetch, Awaiting));
      mutation := InFlight;
    }

    /** Stores the record, then sends; refuses while anything is pending. */
    method RunNewMutation(p: Pending, fetch: Option<nat>, works: bool) returns (error: Option<ControllerError>)
      modifies this
      ensures Contents() == ClientProtocol.RunNewMutation(old(Contents()), p, fetch, works)
      ensures error == Some(PendingOperationExists) <==> !Free(old(Contents()))
      ensures error.None? ==> store == Some(p) && flight == Some(Flight(p, fetch, Awaiting))
    {
      if flight.Some? || recovery.Some? || store.Some? {
        return Some(PendingOperationExists);
      }
      if !Storable(p) || !works {
        return Some(StorageFailed);
      }
      store := Some(p);
      BeginMutation(p, fetch);
      return None;
    }

    method SubmitCommand(key: string, expectedVersion: int, command: Command, fetch: Option<nat>, works: bool)
      returns (error: Option<ControllerError>)
      modifies this
      ensures Contents() == ClientProtocol.SubmitCommand(old(Contents()), key, expectedVersion, command, fetch, works)
      ensures error.None? ==> old(displayed).Some? && store.Some?
      ensures error.None? ==>
        store.value.op == CommandOperation(old(displayed).value.attempt, old(displayed).value.version, command)
    {
      if displayed.None? || displayed.value.at.state != Active {
        return Some(InvalidAction);
      }
      if expectedVersion != displayed.value.version {
        return Some(InvalidAction);
      }
      var operation := CommandOperation(displayed.value.attempt, expectedVersion, command);
      error := RunNewMutation(Pending(key, operation), fetch, works);
    }

    method StartAttempt(key: string, fetch: Option<nat>, works: bool) returns (error: Option<ControllerError>)
      modifies this
      ensures Contents() == ClientProtocol.StartAttempt(old(Contents()), key, fetch, works)
    {
      if currentCase.None? || !currentCase.value.NotStarted? {
        return Some(InvalidAction);
      }
      var operation := StartOperation(currentCase.value.slot, currentCase.value.closesAt);
      error := RunNewMutation(Pending(key, operation), fetch, works);
    }

    /** The finally blocks of executeMutation and of a replay that it belongs to. */
    method EndMutation()
      modifies this`flight, this`recovery
      ensures Contents() == EndFlight(old(Contents()))
    {
      flight := None;
      if recovery == Some(Replaying) {
        recovery := None;
      }
    }

    method HandleSuccess(view: View, works: bool)
      requires flight.Some?
      modifies this
      ensures Contents() == Succeed(old(Contents()), view, works)
    {
      if !works {
        mutation := Uncertain;
        EndMutation();
        return;
      }
      store := None;
      if flight.value.pending.op.StartOperation? {
        currentCase := Some(Shown(view));
      }
      ApplyAttempt(view);
      mutation := NoMutation;
      status := Ready;
      EndMutation();
    }

    method HandleMutationFailure(error: ClientError, works: bool)
      requires flight.Some?
      modifies this
      ensures Contents() == Fail(old(Contents()), error, works)
    {
      if error == ApiError(AuthenticationRequired) {
        HandleSessionLoss(works);
        EndMutation();
        return;
      }
      if error == OtherError || RetryDirective(error) == ReplayExactMutation {
        mutation := Uncertain;
        EndMutation();
        return;
      }
      if !works {
        EndMutation();
        return;
      }
      store := None;
      var command := flight.value.pending.op.CommandOperation?;
      if command && error == ApiError(ApiCode.StaleVersion) {
        flight := Some(flight.value.(phase := Settling(true)));
        return;
      }
      mutation := NoMutation;
      if error == ApiError(ApiCode.NoCurrentCase)
         || (command && error in {ApiError(ApiCode.TerminalAttempt), ApiError(ApiCode.EvidenceLimit)})
      {
        flight := Some(flight.value.(phase := Settling(false)));
      } else {
        EndMutation();
      }
    }

    method FinishFailure()
      requires flight.Some? && flight.value.phase.Settling?
      modifies this
      ensures Contents() == Settle(old(Contents()))
    {
      if flight.value.phase.stale && status != SessionLost {
        mutation := Stale;
      }
      EndMutation();
    }

    method ReplayPendingOperation(fetch: Option<nat>) returns (error: Option<ControllerError>)
      modifies this
      ensures Contents() == ClientProtocol.ReplayPendingOperation(old(Contents()), fetch)
      ensures error.None? <==> MayRecover(old(Contents()))
    {
      if flight.Some? || recovery.Some? {
        return Some(PendingOperationExists);
      }
      if store.None? {
        return Some(InvalidAction);
      }
      var pending := store.value;
      if pending.op.StartOperation? {
        recovery := Some(Reconciling(true, pending));
      } else {
        recovery := Some(Replaying);
        BeginMutation(pending, fetch);
      }
      return None;
    }

    method ReconcilePendingOperation() returns (error: Option<ControllerError>)
      modifies this
      ensures Contents() == ClientProtocol.ReconcilePendingOperation(old(Contents()))
    {
      if flight.Some? || recovery.Some? {
        return Some(PendingOperationExists);
      }
      if store.Some? {
        recovery := Some(Reconciling(false, store.value));
      }
      return None;
    }

    method FinishCommandReconciliation(accepted: Option<View>, names: map<Id, string>, works: bool)
      requires recovery.Some? && recovery.value.Reconciling? && recovery.value.pending.op.CommandOperation?
      modifies this
      ensures Contents() == ReconcileCommand(old(Contents()), accepted, names, works)
    {
      var op := recovery.value.pending.op;
      if accepted.Some? {
        ApplyAttempt(accepted.value);
      }
      if status != SessionLost {
        if accepted.Some? && Proven(op, accepted.value, names) {
          if works {
            store := None;
            mutation := NoMutation;
          }
        } else {
          mutation := Uncertain;
        }
      }
      recovery := None;
    }

    method FinishStartReconciliation(accepted: Option<CaseView>, fetch: Option<nat>, works: bool)
      requires recovery.Some? && recovery.value.Reconciling? && recovery.value.pending.op.StartOperation?
      modifies this
      ensures Contents() == ReconcileStart(old(Contents()), accepted, fetch, works)
    {
      var Reconciling(replay, pending) := recovery.value;
      if accepted.Some? {
        AcceptCase(accepted.value);
      }
      recovery := None;
      if status == SessionLost {
        return;
      }
      if SameRevision(currentCase, pending.op.closesAt) || TargetPassed(currentCase, pending.op.slot, pending.op.closesAt) {
        if works {
          store := None;
          mutation := NoMutation;
        }
        return;
      }
      mutation := Uncertain;
      if replay && store.Some? && store.value.op.StartOperation? && status == Ready && flight.None?
         && currentCase == Some(NotStarted(store.value.op.slot, store.value.op.closesAt))
      {
        recovery := Some(Replaying);
        BeginMutation(store.value, fetch);
      }
    }

    method Initialize(createNew: bool, works: bool)
      modifies this
      ensures Contents() == ClientProtocol.Initialize(old(Contents()), createNew, works)
    {
      generation := generation + 1;
      sessionReady := false;
      if createNew {
        currentCase, displayed := None, None;
      }
      status, mutation := Hydrating, NoMutation;
      if createNew {
        if works {
          store := None;
        } else {
          status := ReadError;
        }
      }
    }

    method FinishInitialize(started: nat)
      modifies this
      ensures Contents() == Hydrated(old(Contents()), started)
    {
      if started != generation {
        return;
      }
      sessionReady := true;
      mutation := if store.None? then NoMutation else Uncertain;
    }
  }
}
