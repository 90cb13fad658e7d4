/** The N-data-center conflict resolver: before a replicated event is applied
    to a branch other than the current one, the cached mutable state may have
    to be rebuilt by replaying that branch.

    The collaborators are objects the resolver changes in place: the
    caller's VersionHistories (shared by reference with the states), the
    cached and rebuilt mutable states, the execution context and the state
    rebuilder. Each keeps a log of the calls made on it, standing for the
    call-count expectations the resolver is specified by. */
module NDCConflictResolver {
  import opened Wrappers
  import opened Shared
  import opened VersionHistory

  datatype WorkflowIdentifier = WorkflowIdentifier(domainID: string, workflowID: string, runID: string)

  datatype ExecutionInfo = ExecutionInfo(domainID: string, workflowID: string, runID: string)

  datatype Task = UpsertWorkflowSearchAttributesTask

  /** The arguments of one call to the state rebuilder. */
  datatype RebuildRequest = RebuildRequest(
    sourceIdentifier: WorkflowIdentifier,
    branchToken: seq<bv8>,
    nextEventID: int,
    targetIdentifier: WorkflowIdentifier,
    requestID: string)

  /** What a replay produces: the replayed execution with the version
      histories it reconstructed, and the bytes of history it read. */
  datatype ReplayResult = ReplayResult(executionInfo: ExecutionInfo, versionHistories: VersionHistories, historySize: int)

  datatype MutableStateCall =
    | SetVersionHistoriesCall
    | SetUpdateConditionCall(condition: int)
    | AddTransferTasksCall(tasks: seq<Task>)

  datatype ContextCall = ClearCall | SetHistorySizeCall(size: int)

  /** A VersionHistories object, which several holders may share. */
  class VersionHistoriesRef {
    var histories: seq<VersionHistory>
    var currentIndex: int

    constructor (v: VersionHistories)
      ensures Value() == v
    {
      histories := v.histories;
      currentIndex := v.currentIndex;
    }

    function Value(): VersionHistories
      reads this
    {
      VersionHistories(histories, currentIndex)
    }

    method SetCurrentVersionHistoryIndex(index: int) returns (r: Outcome<ServiceError>)
      modifies this
      ensures r.Pass? <==> 0 <= index < |histories|
      ensures histories == old(histories)
      ensures currentIndex == (if r.Pass? then index else old(currentIndex))
    {
      if index < 0 || index >= |histories| {
        return Fail(BadRequestError("invalid current branch index."));
      }
      currentIndex := index;
      return Pass;
    }
  }

  class MutableState {
    var versionHistories: VersionHistoriesRef
    var updateCondition: int
    const executionInfo: ExecutionInfo
    var transferTasks: seq<Task>
    var calls: seq<MutableStateCall>

    /** A state as a replay leaves it: its own version histories, no update
        condition yet, no transfer tasks. */
    constructor (executionInfo: ExecutionInfo, versionHistories: VersionHistories)
      ensures this.executionInfo == executionInfo
      ensures fresh(this.versionHistories) && this.versionHistories.Value() == versionHistories
      ensures updateCondition == 0 && transferTasks == [] && calls == []
    {
      this.executionInfo := executionInfo;
      this.versionHistories := new VersionHistoriesRef(versionHistories);
      updateCondition := 0;
      transferTasks := [];
      calls := [];
    }

    method SetVersionHistories(v: VersionHistoriesRef)
      modifies this
      ensures versionHistories == v
      ensures updateCondition == old(updateCondition) && transferTasks == old(transferTasks)
      ensures calls == old(calls) + [SetVersionHistoriesCall]
    {
      versionHistories := v;
      calls := calls + [SetVersionHistoriesCall];
    }

    method SetUpdateCondition(condition: int)
      modifies this
      ensures updateCondition == condition
      ensures versionHistories == old(versionHistories) && transferTasks == old(transferTasks)
      ensures calls == old(calls) + [SetUpdateConditionCall(condition)]
    {
      updateCondition := condition;
      calls := calls + [SetUpdateConditionCall(condition)];
    }

    method AddTransferTasks(tasks: seq<Task>)
      modifies this
      ensures transferTasks == old(transferTasks) + tasks
      ensures versionHistories == old(versionHistories) && updateCondition == old(updateCondition)
      ensures calls == old(calls) + [AddTransferTasksCall(tasks)]
    {
      transferTasks := transferTasks + tasks;
      calls := calls + [AddTransferTasksCall(tasks)];
    }
  }

  /** The execution's cache entry. */
  class ExecutionContext {
    var cached: MutableState?
    var historySize: int
    var calls: seq<ContextCall>

    constructor (cached: MutableState?, historySize: int)
      ensures this.cached == cached && this.historySize == historySize && calls == []
    {
      this.cached := cached;
      this.historySize := historySize;
      calls := [];
    }

    /** Drops the cached mutable state. */
    method Clear()
      modifies this
      ensures cached == null && historySize == old(historySize)
      ensures calls == old(calls) + [ClearCall]
    {
      cached := null;
      calls := calls + [ClearCall];
    }

    method SetHistorySize(size: int)
      modifies this
      ensures historySize == size && cached == old(cached)
      ensures calls == old(calls) + [SetHistorySizeCall(size)]
    {
      historySize := size;
      calls := calls + [SetHistorySizeCall(size)];
    }
  }

  /** The state rebuilder. Its replay of storage is the function `replay`. */
  class StateRebuilder {
    const replay: RebuildRequest -> Result<ReplayResult, ServiceError>
    var requests: seq<RebuildRequest>

    constructor (replay: RebuildRequest -> Result<ReplayResult, ServiceError>)
      ensures this.replay == replay && requests == []
    {
      this.replay := replay;
      requests := [];
    }

    method Rebuild(request: RebuildRequest) returns (r: Result<(MutableState, int), ServiceError>)
      modifies this
      ensures requests == old(requests) + [request]
      ensures r.Success? <==> replay(request).Success?
      ensures r.Failure? ==> r.error == replay(request).error
      ensures r.Success? ==>
        && fresh(r.value.0) && fresh(r.value.0.versionHistories)
        && r.value.0.executionInfo == replay(request).value.executionInfo
        && r.value.0.versionHistories.Value() == replay(request).value.versionHistories
        && r.value.0.transferTasks == [] && r.value.0.calls == []
        && r.value.1 == replay(request).value.historySize
    {
      requests := requests + [request];
      var replayed := replay(request);
      if replayed.Failure? {
        return Failure(replayed.error);
      }
      var state := new MutableState(replayed.value.executionInfo, replayed.value.versionHistories);
      return Success((state, replayed.value.historySize));
    }
  }

  /** The rebuilder call for a branch: the execution replayed onto itself
      from the branch's token, under the given request id. Its next event id
      is one past the last event the replay covers, so the replay takes in
      the whole branch. */
  function RebuildRequestFor(vhs: VersionHistories, info: ExecutionInfo, branchIndex: int, requestID: string): (r: Result<RebuildRequest, ServiceError>)
    ensures r.Success? <==> 0 <= branchIndex < |vhs.histories| && |vhs.histories[branchIndex].items| > 0
    ensures r.Success? ==>
      var target := vhs.histories[branchIndex];
      && r.value.sourceIdentifier == WorkflowIdentifier(info.domainID, info.workflowID, info.runID)
      && r.value.targetIdentifier == r.value.sourceIdentifier
      && r.value.branchToken == target.branchToken
      && r.value.nextEventID == target.items[|target.items| - 1].eventID + 1
      && r.value.requestID == requestID
  {
    var target :- GetVersionHistory(vhs, branchIndex);
    var lastItem :- GetLastItem(target);
    var id := WorkflowIdentifier(info.domainID, info.workflowID, info.runID);
    Success(RebuildRequest(id, target.branchToken, lastItem.eventID + 1, id, requestID))
  }

  /** On a branch whose items grow, every event the branch contains lies
      before the rebuild's next event id: the replay covers the whole branch. */
  lemma {:induction false} RebuildCoversTargetBranch(
    vhs: VersionHistories, info: ExecutionInfo, branchIndex: int, requestID: string, event: VersionHistoryItem)
    requires RebuildRequestFor(vhs, info, branchIndex, requestID).Success?
    requires IncreasingEventIDs(vhs.histories[branchIndex].items)
    requires ContainsItem(vhs.histories[branchIndex], event)
    ensures event.eventID < RebuildRequestFor(vhs, info, branchIndex, requestID).value.nextEventID
  {
    var items := vhs.histories[branchIndex].items;
    var k :| 0 <= k < |items| && items[k].version == event.version && SegmentStart(items, k) < event.eventID <= items[k].eventID;
    if k < |items| - 1 {
      assert items[k].eventID < items[|items| - 1].eventID;
    }
  }

  /** What prepareMutableState decides before touching anything: keep the
      cached state (false), rebuild (true), or refuse. */
  function PrepareDecision(vhs: VersionHistories, branchIndex: int, incomingVersion: int): (d: Result<bool, ServiceError>)
    ensures branchIndex == vhs.currentIndex ==> d == Success(false)
    ensures d == Success(true) <==>
      && branchIndex != vhs.currentIndex
      && 0 <= vhs.currentIndex < |vhs.histories|
      && |vhs.histories[vhs.currentIndex].items| > 0
      && incomingVersion > vhs.histories[vhs.currentIndex].items[|vhs.histories[vhs.currentIndex].items| - 1].version
    ensures branchIndex != vhs.currentIndex && 0 <= vhs.currentIndex < |vhs.histories|
            && |vhs.histories[vhs.currentIndex].items| > 0 ==>
      var lastVersion := vhs.histories[vhs.currentIndex].items[|vhs.histories[vhs.currentIndex].items| - 1].version;
      && (incomingVersion < lastVersion ==> d == Success(false))
      && (incomingVersion == lastVersion ==> d.Failure? && d.error.BadRequestError?)
  {
    if branchIndex == vhs.currentIndex then Success(false)
    else
      var current :- GetCurrentVersionHistory(vhs);
      var lastItem :- GetLastItem(current);
      if incomingVersion < lastItem.version then Success(false)
      else if incomingVersion == lastItem.version then
        Failure(BadRequestError("nDCConflictResolver encounter replication task version == current branch last write version"))
      else Success(true)
  }

  class ConflictResolver {
    const context: ExecutionContext
    const mutableState: MutableState
    const stateRebuilder: StateRebuilder
    const enableVisibilityToKafka: bool

    constructor (context: ExecutionContext, mutableState: MutableState, stateRebuilder: StateRebuilder, enableVisibilityToKafka: bool)
      ensures this.context == context && this.mutableState == mutableState
      ensures this.stateRebuilder == stateRebuilder && this.enableVisibilityToKafka == enableVisibilityToKafka
    {
      this.context := context;
      this.mutableState := mutableState;
      this.stateRebuilder := stateRebuilder;
      this.enableVisibilityToKafka := enableVisibilityToKafka;
    }

    /** Replays the branch at `branchIndex` into a fresh mutable state, makes
        that branch current in the caller's VersionHistories and hands both
        the shared VersionHistories and the old update condition to the new
        state; the context then drops its cache and takes the replayed size.
        A failure before the replay changes nothing. */
    method Rebuild(branchIndex: int, requestID: string) returns (r: Result<MutableState, ServiceError>)
      modifies mutableState.versionHistories, context, stateRebuilder
      ensures unchanged(mutableState)
      ensures RebuildRequestFor(old(mutableState.versionHistories.Value()), mutableState.executionInfo, branchIndex, requestID).Failure? ==>
        && r == Failure(RebuildRequestFor(old(mutableState.versionHistories.Value()), mutableState.executionInfo, branchIndex, requestID).error)
        && unchanged(mutableState.versionHistories, context, stateRebuilder)
      ensures RebuildRequestFor(old(mutableState.versionHistories.Value()), mutableState.executionInfo, branchIndex, requestID).Success? ==>
        var request := RebuildRequestFor(old(mutableState.versionHistories.Value()), mutableState.executionInfo, branchIndex, requestID).value;
        && stateRebuilder.requests == old(stateRebuilder.requests) + [request]
        && (r.Success? <==> stateRebuilder.replay(request).Success?)
        && (r.Failure? ==> r.error == stateRebuilder.replay(request).error
                           && unchanged(mutableState.versionHistories, context))
        && (r.Success? ==>
              && fresh(r.value)
              && r.value.executionInfo == stateRebuilder.replay(request).value.executionInfo
              && r.value.versionHistories == mutableState.versionHistories
              && r.value.updateCondition == mutableState.updateCondition
              && r.value.transferTasks == []
              && r.value.calls == [SetVersionHistoriesCall, SetUpdateConditionCall(mutableState.updateCondition)]
              && mutableState.versionHistories.histories == old(mutableState.versionHistories.histories)
              && mutableState.versionHistories.currentIndex == branchIndex
              && context.cached == null
              && context.historySize == stateRebuilder.replay(request).value.historySize
              && context.calls == old(context.calls) + [ClearCall, SetHistorySizeCall(context.historySize)])
    {
      var versionHistories := mutableState.versionHistories;
      var replayVersionHistory :- GetVersionHistory(versionHistories.Value(), branchIndex);
      var lastItem :- GetLastItem(replayVersionHistory);
      var executionInfo := mutableState.executionInfo;
      var workflowIdentifier := WorkflowIdentifier(executionInfo.domainID, executionInfo.workflowID, executionInfo.runID);

      var rebuilt := stateRebuilder.Rebuild(RebuildRequest(
        workflowIdentifier, replayVersionHistory.branchToken, lastItem.eventID + 1, workflowIdentifier, requestID));
      if rebuilt.Failure? {
        return Failure(rebuilt.error);
      }
      var rebuildMutableState := rebuilt.value.0;
      var rebuiltHistorySize := rebuilt.value.1;

      // the index was read from this very object above, so the switch succeeds
      var switched := versionHistories.SetCurrentVersionHistoryIndex(branchIndex);
      assert switched.Pass?;
      rebuildMutableState.SetVersionHistories(versionHistories);
      rebuildMutableState.SetUpdateCondition(mutableState.updateCondition);

      context.Clear();
      context.SetHistorySize(rebuiltHistorySize);
      return Success(rebuildMutableState);
    }

    /** Returns the state the incoming event is to be applied to and whether
        it was rebuilt. `newRequestID` is the request id a rebuild is given. */
    method PrepareMutableState(branchIndex: int, incomingVersion: int, newRequestID: string)
      returns (r: Result<(MutableState, bool), ServiceError>)
      modifies mutableState.versionHistories, context, stateRebuilder
      ensures unchanged(mutableState)
      ensures PrepareDecision(old(mutableState.versionHistories.Value()), branchIndex, incomingVersion).Failure? ==>
        && r == Failure(PrepareDecision(old(mutableState.versionHistories.Value()), branchIndex, incomingVersion).error)
        && unchanged(mutableState.versionHistories, context, stateRebuilder)
      ensures PrepareDecision(old(mutableState.versionHistories.Value()), branchIndex, incomingVersion) == Success(false) ==>
        && r == Success((mutableState, false))
        && unchanged(mutableState.versionHistories, context, stateRebuilder)
      ensures PrepareDecision(old(mutableState.versionHistories.Value()), branchIndex, incomingVersion) == Success(true)
              && RebuildRequestFor(old(mutableState.versionHistories.Value()), mutableState.executionInfo, branchIndex, newRequestID).Failure? ==>
        && r == Failure(RebuildRequestFor(old(mutableState.versionHistories.Value()), mutableState.executionInfo, branchIndex, newRequestID).error)
        && unchanged(mutableState.versionHistories, context, stateRebuilder)
      ensures PrepareDecision(old(mutableState.versionHistories.Value()), branchIndex, incomingVersion) == Success(true)
              && RebuildRequestFor(old(mutableState.versionHistories.Value()), mutableState.executionInfo, branchIndex, newRequestID).Success? ==>
        var request := RebuildRequestFor(old(mutableState.versionHistories.Value()), mutableState.executionInfo, branchIndex, newRequestID).value;
        && stateRebuilder.requests == old(stateRebuilder.requests) + [request]
        && (r.Success? <==> stateRebuilder.replay(request).Success?)
        && (r.Failure? ==> r.error == stateRebuilder.replay(request).error
                           && unchanged(mutableState.versionHistories, context))
        && (r.Success? ==>
              && r.value.1
              && fresh(r.value.0)
              && r.value.0.executionInfo == stateRebuilder.replay(request).value.executionInfo
              && r.value.0.versionHistories == mutableState.versionHistories
              && r.value.0.updateCondition == mutableState.updateCondition
              && r.value.0.transferTasks == (if enableVisibilityToKafka then [UpsertWorkflowSearchAttributesTask] else [])
              && r.value.0.calls ==
                   [SetVersionHistoriesCall, SetUpdateConditionCall(mutableState.updateCondition)]
                   + (if enableVisibilityToKafka then [AddTransferTasksCall([UpsertWorkflowSearchAttributesTask])] else [])
              && mutableState.versionHistories.histories == old(mutableState.versionHistories.histories)
              && mutableState.versionHistories.currentIndex == branchIndex
              && context.cached == null
              && context.historySize == stateRebuilder.replay(request).value.historySize
              && context.calls == old(context.calls) + [ClearCall, SetHistorySizeCall(context.historySize)])
    {
      var versionHistories := mutableState.versionHistories.Value();
      var currentVersionHistoryIndex := versionHistories.currentIndex;
      if branchIndex == currentVersionHistoryIndex {
        // the event goes onto the current branch
        return Success((mutableState, false));
      }
      var currentVersionHistory :- GetVersionHistory(versionHistories, currentVersionHistoryIndex);
      var currentLastItem :- GetLastItem(currentVersionHistory);
      if incomingVersion < currentLastItem.version {
        // the current branch stays current: no rebuild
        return Success((mutableState, false));
      }
      if incomingVersion == currentLastItem.version {
        return Failure(BadRequestError("nDCConflictResolver encounter replication task version == current branch last write version"));
      }

      // the incoming branch wins once applied: rebuild onto it
      var rebuilt := Rebuild(branchIndex, newRequestID);
      if rebuilt.Failure? {
        return Failure(rebuilt.error);
      }
      var rebuildMutableState := rebuilt.value;
      if enableVisibilityToKafka {
        rebuildMutableState.AddTransferTasks([UpsertWorkflowSearchAttributesTask]);
      }
      return Success((rebuildMutableState, true));
    }
  }

  // ------------------------------------------------ the resolver's scenarios

  const Version: int := 12
  const Token0: seq<bv8> := [0]
  const Token1: seq<bv8> := [1]

  /** Two branches at version 12 ending at events 5 and 2: rebuilding branch
      1 replays token 1 through event 2 (next event id 3), as that execution,
      under the given request id. */
  lemma RebuildScenario(info: ExecutionInfo, requestID: string)
    ensures var vhs := VersionHistories([VersionHistory(Token0, [VersionHistoryItem(5, Version)]),
                                         VersionHistory(Token1, [VersionHistoryItem(2, Version)])], 0);
      var id := WorkflowIdentifier(info.domainID, info.workflowID, info.runID);
      RebuildRequestFor(vhs, info, 1, requestID) == Success(RebuildRequest(id, Token1, 3, id, requestID))
  {
  }

  /** An event for the current branch never causes a rebuild, whatever its
      version. */
  lemma NoRebuildScenario(incomingVersion: int)
    ensures PrepareDecision(VersionHistories([VersionHistory(Token0, [VersionHistoryItem(2, Version)])], 0), 0, incomingVersion)
      == Success(false)
  {
  }

  /** A higher version for the stale branch 1 (ending at event 1) rebuilds it,
      replaying through event 1 (next event id 2). */
  lemma PrepareRebuildScenario(info: ExecutionInfo, requestID: string)
    ensures var vhs := VersionHistories([VersionHistory(Token0, [VersionHistoryItem(2, Version)]),
                                         VersionHistory(Token1, [VersionHistoryItem(1, Version)])], 0);
      && PrepareDecision(vhs, 1, Version + 1) == Success(true)
      && RebuildRequestFor(vhs, info, 1, requestID).value.nextEventID == 2
      && RebuildRequestFor(vhs, info, 1, requestID).value.branchToken == Token1
  {
  }

  // -------------------------------------- the scenarios run against the classes

  const UpdateCondition: int := 59
  const HistorySize: int := 12345

  /** The rebuild test against the classes: branch 1 of RebuildScenario's
      histories is replayed through one rebuilder call, the shared
      VersionHistories object ends up current at branch 1 and is handed to
      the rebuilt state together with update condition 59, each once, and the
      context is cleared once and given the replayed size once. */
  method RebuildMethodScenario(info: ExecutionInfo, requestID: string)
    returns (requests: seq<RebuildRequest>, rebuiltCalls: seq<MutableStateCall>, sharesHistories: bool,
             currentIndex: int, contextCalls: seq<ContextCall>)
    ensures var id := WorkflowIdentifier(info.domainID, info.workflowID, info.runID);
      requests == [RebuildRequest(id, Token1, 3, id, requestID)]
    ensures rebuiltCalls == [SetVersionHistoriesCall, SetUpdateConditionCall(UpdateCondition)]
    ensures sharesHistories
    ensures currentIndex == 1
    ensures contextCalls == [ClearCall, SetHistorySizeCall(HistorySize)]
  {
    var vhs := VersionHistories([VersionHistory(Token0, [VersionHistoryItem(5, Version)]),
                                 VersionHistory(Token1, [VersionHistoryItem(2, Version)])], 0);
    var state := new MutableState(info, vhs);
    state.SetUpdateCondition(UpdateCondition);
    var replayed := ReplayResult(info, VersionHistories([VersionHistory([], [VersionHistoryItem(2, Version)])], 0), HistorySize);
    var rebuilder := new StateRebuilder(q => Success(replayed));
    var context := new ExecutionContext(state, 0);
    var resolver := new ConflictResolver(context, state, rebuilder, false);

    var r := resolver.Rebuild(1, requestID);
    requests := rebuilder.requests;
    rebuiltCalls := if r.Success? then r.value.calls else [];
    sharesHistories := r.Success? && r.value.versionHistories == state.versionHistories;
    currentIndex := state.versionHistories.currentIndex;
    contextCalls := context.calls;
  }

  /** The no-rebuild test against the classes: an event for the current
      branch hands back the cached state unrebuilt, with no call on the
      rebuilder or the context. */
  method NoRebuildMethodScenario(info: ExecutionInfo, requestID: string)
    returns (keepsCached: bool, isRebuilt: bool, requests: seq<RebuildRequest>, contextCalls: seq<ContextCall>)
    ensures keepsCached && !isRebuilt
    ensures requests == [] && contextCalls == []
  {
    var vhs := VersionHistories([VersionHistory(Token0, [VersionHistoryItem(2, Version)])], 0);
    var state := new MutableState(info, vhs);
    var replayed := ReplayResult(info, vhs, HistorySize);
    var rebuilder := new StateRebuilder(q => Success(replayed));
    var context := new ExecutionContext(state, 0);
    var resolver := new ConflictResolver(context, state, rebuilder, false);

    var r := resolver.PrepareMutableState(0, Version, requestID);
    keepsCached := r.Success? && r.value.0 == state;
    isRebuilt := r.Success? && r.value.1;
    requests := rebuilder.requests;
    contextCalls := context.calls;
  }

  /** The prepare-with-rebuild test against the classes: version 13 for the
      stale branch 1 rebuilds it through one rebuilder call with next event
      id 2; the rebuilt state gets the shared histories and update condition
      59 once each and, with visibility to Kafka, one search-attribute upsert
      task; the context is cleared once and given the replayed size once. */
  method PrepareRebuildMethodScenario(info: ExecutionInfo, requestID: string, enableVisibilityToKafka: bool)
    returns (isRebuilt: bool, requests: seq<RebuildRequest>, rebuiltCalls: seq<MutableStateCall>,
             currentIndex: int, contextCalls: seq<ContextCall>)
    ensures isRebuilt
    ensures var id := WorkflowIdentifier(info.domainID, info.workflowID, info.runID);
      requests == [RebuildRequest(id, Token1, 2, id, requestID)]
    ensures rebuiltCalls == [SetVersionHistoriesCall, SetUpdateConditionCall(UpdateCondition)]
      + (if enableVisibilityToKafka then [AddTransferTasksCall([UpsertWorkflowSearchAttributesTask])] else [])
    ensures currentIndex == 1
    ensures contextCalls == [ClearCall, SetHistorySizeCall(HistorySize)]
  {
    var vhs := VersionHistories([VersionHistory(Token0, [VersionHistoryItem(2, Version)]),
                                 VersionHistory(Token1, [VersionHistoryItem(1, Version)])], 0);
    var state := new MutableState(info, vhs);
    state.SetUpdateCondition(UpdateCondition);
    var replayed := ReplayResult(info, VersionHistories([VersionHistory([], [VersionHistoryItem(1, Version)])], 0), HistorySize);
    var rebuilder := new StateRebuilder(q => Success(replayed));
    var context := new ExecutionContext(state, 0);
    var resolver := new ConflictResolver(context, state, rebuilder, enableVisibilityToKafka);

    var id := WorkflowIdentifier(info.domainID, info.workflowID, info.runID);
    assert PrepareDecision(vhs, 1, Version + 1) == Success(true);
    assert RebuildRequestFor(vhs, info, 1, requestID) == Success(RebuildRequest(id, Token1, 2, id, requestID));
    assert rebuilder.replay(RebuildRequest(id, Token1, 2, id, requestID)) == Success(replayed);
    var r := resolver.PrepareMutableState(1, Version + 1, requestID);
    isRebuilt := r.Success? && r.value.1;
    requests := rebuilder.requests;
    rebuiltCalls := if r.Success? then r.value.0.calls else [];
    currentIndex := state.versionHistories.currentIndex;
    contextCalls := context.calls;
  }
}
