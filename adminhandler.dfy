/** The decision logic of the frontend's admin handler: request validation,
    the version-history range resolution behind the raw-history APIs, their
    pagination tokens, the search-attribute whitelist merge and the small
    helpers the handlers share.

    Calls into other services (history service, domain cache, storage,
    dynamic config) are parameters: their results are given to the model
    rather than fetched. UUID parsing is the uninterpreted `isUUID`. */
module AdminHandler {
  import opened Wrappers
  import opened Shared
  import opened VersionHistory
  import Common

  type Blob = seq<bv8>

  datatype WorkflowExecution = WorkflowExecution(workflowId: string, runId: string)

  /** Go's nil-safe generated getters: a missing execution has empty ids. */
  function WorkflowIdOf(e: Option<WorkflowExecution>): string
  {
    if e.Some? then e.value.workflowId else ""
  }

  function RunIdOf(e: Option<WorkflowExecution>): string
  {
    if e.Some? then e.value.runId else ""
  }

  // Named bad-request errors of the frontend package.
  const ErrRequestNotSet := BadRequestError("Request is nil.")
  const ErrNoPermission := BadRequestError("No permission to do this operation.")
  const ErrExecutionNotSet := BadRequestError("Execution is not set on request.")
  const ErrWorkflowIDNotSet := BadRequestError("WorkflowId is not set on request.")
  const ErrInvalidRunID := BadRequestError("Invalid RunId.")

  // ================================================================ errors

  /** The failure counters the handler's metrics scope can be bumped with. */
  datatype FailureCounter = CadenceFailures | CadenceErrBadRequestCounter | CadenceErrServiceBusyCounter

  /** What errorThrift hands back: the error to return, the counter it
      increments (if any) and whether it logs the error. */
  datatype ThriftError = ThriftError(error: ServiceError, counter: Option<FailureCounter>, logged: bool)

  /** The known error kinds pass through, anything else becomes an internal
      service error with the same message. */
  function ErrorThrift(err: ServiceError): (t: ThriftError)
    ensures !t.error.UncategorizedError?
    ensures t.error.message == err.message
    ensures !err.UncategorizedError? ==> t.error == err
    ensures err.UncategorizedError? ==> t.error == InternalServiceError(err.message)
    ensures t.logged <==> err.InternalServiceError? || err.UncategorizedError?
    ensures t.counter == Some(CadenceFailures) <==> t.logged
    ensures t.counter.None? <==> err.EntityNotExistsError?
    ensures err.BadRequestError? ==> t.counter == Some(CadenceErrBadRequestCounter)
    ensures err.ServiceBusyError? ==> t.counter == Some(CadenceErrServiceBusyCounter)
  {
    match err
    case InternalServiceError(_) => ThriftError(err, Some(CadenceFailures), true)
    case BadRequestError(_) => ThriftError(err, Some(CadenceErrBadRequestCounter), false)
    case ServiceBusyError(_) => ThriftError(err, Some(CadenceErrServiceBusyCounter), false)
    case EntityNotExistsError(_) => ThriftError(err, None, false)
    case UncategorizedError(m) => ThriftError(InternalServiceError(m), Some(CadenceFailures), true)
  }

  /** Classifying an already classified error changes nothing. */
  lemma ErrorThriftIdempotent(err: ServiceError)
    ensures ErrorThrift(ErrorThrift(err).error).error == ErrorThrift(err).error
  {
  }

  /** The error a handler returns through its error helper: the service
      error classified by errorThrift, never an uncategorized one. */
  function HandlerError(err: ServiceError): (e: ServiceError)
    ensures !e.UncategorizedError? && e.message == err.message
    ensures e == (if err.UncategorizedError? then InternalServiceError(err.message) else err)
  {
    ErrorThrift(err).error
  }

  // ======================================================= small validators

  function ValidateExecution(w: Option<WorkflowExecution>, isUUID: string -> bool): (r: Outcome<ServiceError>)
    ensures r.Pass? <==> w.Some? && w.value.workflowId != "" && (w.value.runId == "" || isUUID(w.value.runId))
    ensures w.None? ==> r == Fail(ErrExecutionNotSet)
    ensures w.Some? && w.value.workflowId == "" ==> r == Fail(ErrWorkflowIDNotSet)
    ensures r.Fail? && w.Some? && w.value.workflowId != "" ==> r == Fail(ErrInvalidRunID)
  {
    if w.None? then Fail(ErrExecutionNotSet)
    else if w.value.workflowId == "" then Fail(ErrWorkflowIDNotSet)
    else if w.value.runId != "" && !isUUID(w.value.runId) then Fail(ErrInvalidRunID)
    else Pass
  }

  /** The admin-protection settings read from dynamic config. */
  datatype AdminConfig = AdminConfig(enableAdminProtection: bool, adminOperationToken: string)

  function CheckPermission(config: AdminConfig, securityToken: string): (r: Outcome<ServiceError>)
    ensures r.Pass? <==> !config.enableAdminProtection || (securityToken != "" && securityToken == config.adminOperationToken)
    ensures r.Fail? ==> r.error == ErrNoPermission
  {
    if config.enableAdminProtection then
      if securityToken == "" then Fail(ErrNoPermission)
      else if securityToken != config.adminOperationToken then Fail(ErrNoPermission)
      else Pass
    else Pass
  }

  /** Under admin protection an empty security token is refused even when the
      configured operation token is itself empty. */
  lemma EmptyTokenNeverPermitted(config: AdminConfig)
    requires config.enableAdminProtection
    ensures CheckPermission(config, "").Fail?
  {
  }

  // Ordinals of the protobuf IndexedValueType enum.
  const IndexedValueTypeString: int := 0
  const IndexedValueTypeKeyword: int := 1
  const IndexedValueTypeInt: int := 2
  const IndexedValueTypeDouble: int := 3
  const IndexedValueTypeBool: int := 4
  const IndexedValueTypeDatetime: int := 5

  /** The Elasticsearch field type of a search-attribute value type; "" for
      a value type the handler does not know. */
  function ConvertIndexedValueTypeToESDataType(valueType: int): (r: string)
    ensures r != "" <==> IndexedValueTypeString <= valueType <= IndexedValueTypeDatetime
    ensures valueType == IndexedValueTypeString ==> r == "text"
    ensures valueType == IndexedValueTypeKeyword ==> r == "keyword"
    ensures valueType == IndexedValueTypeInt ==> r == "long"
    ensures valueType == IndexedValueTypeDouble ==> r == "double"
    ensures valueType == IndexedValueTypeBool ==> r == "boolean"
    ensures valueType == IndexedValueTypeDatetime ==> r == "date"
  {
    if valueType == IndexedValueTypeString then "text"
    else if valueType == IndexedValueTypeKeyword then "keyword"
    else if valueType == IndexedValueTypeInt then "long"
    else if valueType == IndexedValueTypeDouble then "double"
    else if valueType == IndexedValueTypeBool then "boolean"
    else if valueType == IndexedValueTypeDatetime then "date"
    else ""
  }

  /** No two known value types share an Elasticsearch type. */
  lemma ESDataTypeInjective(a: int, b: int)
    requires ConvertIndexedValueTypeToESDataType(a) == ConvertIndexedValueTypeToESDataType(b) != ""
    ensures a == b
  {
  }

  // ============================================== AddSearchAttribute (117-142)

  datatype AddSearchAttributeRequest = AddSearchAttributeRequest(searchAttribute: map<string, int>, securityToken: string)

  /** The checks made before the whitelist is read. */
  function ValidateAddSearchAttributeRequest(
    request: Option<AddSearchAttributeRequest>, config: AdminConfig, advancedVisibilityConfigured: bool
  ): (r: Outcome<ServiceError>)
    ensures r.Pass? <==>
      && request.Some?
      && CheckPermission(config, request.value.securityToken).Pass?
      && |request.value.searchAttribute| > 0
      && advancedVisibilityConfigured
    ensures request.None? ==> r == Fail(ErrRequestNotSet)
    ensures request.Some? && CheckPermission(config, request.value.securityToken).Fail? ==> r == Fail(ErrNoPermission)
  {
    if request.None? then Fail(ErrRequestNotSet)
    else if CheckPermission(config, request.value.securityToken).Fail? then Fail(ErrNoPermission)
    else if |request.value.searchAttribute| == 0 then Fail(BadRequestError("SearchAttributes are not provided"))
    else if !advancedVisibilityConfigured then Fail(BadRequestError("AdvancedVisibilityStore is not configured for this Cadence Cluster"))
    else Pass
  }

  function ReservedKeyError(k: string): ServiceError
  {
    BadRequestError("Key [" + k + "] is reserved by system")
  }

  function AlreadyWhitelistedError(k: string): ServiceError
  {
    BadRequestError("Key [" + k + "] is already whitelist")
  }

  /** Adds the requested attributes to the current whitelist, visiting them in
      an unspecified order as Go's map iteration does. The merge succeeds
      exactly when no requested key is a system key or already whitelisted,
      and then the whitelist gains exactly the requested entries. */
  method MergeSearchAttributes(currentValidAttr: map<string, int>, searchAttr: map<string, int>, systemKeys: set<string>)
    returns (r: Result<map<string, int>, ServiceError>)
    ensures r.Success? <==> forall k | k in searchAttr :: k !in systemKeys && k !in currentValidAttr
    ensures r.Success? ==> r.value == currentValidAttr + searchAttr
    ensures r.Failure? ==> exists k | k in searchAttr ::
      || (k in systemKeys && r.error == ReservedKeyError(k))
      || (k !in systemKeys && k in currentValidAttr && r.error == AlreadyWhitelistedError(k))
  {
    var merged := currentValidAttr;
    var remaining := searchAttr.Keys;
    while remaining != {}
      invariant remaining <= searchAttr.Keys
      invariant forall k | k in searchAttr && k !in remaining :: k !in systemKeys && k !in currentValidAttr
      invariant merged.Keys == currentValidAttr.Keys + (searchAttr.Keys - remaining)
      invariant forall k | k in merged :: merged[k] == if k in searchAttr && k !in remaining then searchAttr[k] else currentValidAttr[k]
      decreases remaining
    {
      var k :| k in remaining;
      if k in systemKeys {
        return Failure(ReservedKeyError(k));
      }
      if k in merged {
        return Failure(AlreadyWhitelistedError(k));
      }
      merged := merged[k := searchAttr[k]];
      remaining := remaining - {k};
    }
    assert merged == currentValidAttr + searchAttr;
    return Success(merged);
  }

  // =============================== GetDomainReplicationMessages read start (667-675)

  const DefaultLastMessageID: int := -1

  /** The message id the domain replication queue is read after, as the
      handler computes it: the cluster's ack level when the request asks for
      the default, and the default otherwise. */
  function DomainReplicationReadStartAsWritten(
    lastRetrievedMessageId: int, clusterName: string, ackLevels: Option<map<string, int>>
  ): (r: int)
    ensures lastRetrievedMessageId != DefaultLastMessageID ==> r == DefaultLastMessageID
    ensures lastRetrievedMessageId == DefaultLastMessageID ==>
      r == (if ackLevels.Some? && clusterName in ackLevels.value then ackLevels.value[clusterName] else DefaultLastMessageID)
  {
    var lastMessageID := DefaultLastMessageID;
    if lastRetrievedMessageId == DefaultLastMessageID && ackLevels.Some? && clusterName in ackLevels.value
    then ackLevels.value[clusterName]
    else lastMessageID
  }

  /** A request that names the message it last retrieved is served from the
      start of the queue instead of from that message. */
  lemma DomainReplicationReadStartIgnoresRequest(lastRetrievedMessageId: int, clusterName: string, ackLevels: Option<map<string, int>>)
    requires lastRetrievedMessageId != DefaultLastMessageID
    ensures DomainReplicationReadStartAsWritten(lastRetrievedMessageId, clusterName, ackLevels) == DefaultLastMessageID
    ensures DomainReplicationReadStart(lastRetrievedMessageId, clusterName, ackLevels) == lastRetrievedMessageId
  {
  }

  /** The read start the handler's contract describes: the request's last
      retrieved id, falling back to the cluster's ack level (when it can be
      read) only for the default id. */
  function DomainReplicationReadStart(
    lastRetrievedMessageId: int, clusterName: string, ackLevels: Option<map<string, int>>
  ): (r: int)
    ensures lastRetrievedMessageId != DefaultLastMessageID ==> r == lastRetrievedMessageId
    ensures lastRetrievedMessageId == DefaultLastMessageID && ackLevels.Some? && clusterName in ackLevels.value ==>
      r == ackLevels.value[clusterName]
    ensures lastRetrievedMessageId == DefaultLastMessageID && !(ackLevels.Some? && clusterName in ackLevels.value) ==>
      r == DefaultLastMessageID
  {
    if lastRetrievedMessageId != DefaultLastMessageID then lastRetrievedMessageId
    else DomainReplicationReadStartAsWritten(lastRetrievedMessageId, clusterName, ackLevels)
  }

  // ===================================================== raw history, shared

  /** The execution and page-size checks both raw-history handlers start with. */
  function ValidateRawHistoryTarget(execution: Option<WorkflowExecution>, maximumPageSize: int, isUUID: string -> bool): (r: Outcome<ServiceError>)
    ensures r.Pass? <==>
      WorkflowIdOf(execution) != "" && RunIdOf(execution) != "" && isUUID(RunIdOf(execution)) && maximumPageSize > 0
    ensures WorkflowIdOf(execution) == "" ==> r == Fail(BadRequestError("Invalid WorkflowID."))
    ensures WorkflowIdOf(execution) != "" && (RunIdOf(execution) == "" || !isUUID(RunIdOf(execution))) ==>
      r == Fail(BadRequestError("Invalid RunID."))
    ensures r.Fail? && WorkflowIdOf(execution) != "" && RunIdOf(execution) != "" && isUUID(RunIdOf(execution)) ==>
      r == Fail(BadRequestError("Invalid PageSize."))
  {
    if |WorkflowIdOf(execution)| == 0 then Fail(BadRequestError("Invalid WorkflowID."))
    else if |RunIdOf(execution)| == 0 || !isUUID(RunIdOf(execution)) then Fail(BadRequestError("Invalid RunID."))
    else if maximumPageSize <= 0 then Fail(BadRequestError("Invalid PageSize."))
    else Pass
  }

  /** The raw-history APIs require a run id, where validateExecution lets an
      empty one through as "the current run". */
  lemma EmptyRunIDAcceptedOnlyByValidateExecution(workflowId: string, maximumPageSize: int, isUUID: string -> bool)
    requires workflowId != ""
    ensures ValidateExecution(Some(WorkflowExecution(workflowId, "")), isUUID).Pass?
    ensures ValidateRawHistoryTarget(Some(WorkflowExecution(workflowId, "")), maximumPageSize, isUUID).Fail?
  {
  }

  datatype ReplicationInfo = ReplicationInfo(version: int, lastEventId: int)

  /** What the history service reports about the execution's mutable state. */
  datatype MutableStateInfo = MutableStateInfo(
    nextEventId: int,
    currentBranchToken: Blob,
    replicationInfo: map<string, ReplicationInfo>)

  // ============================================ GetWorkflowExecutionRawHistory

  datatype HistoryContinuationToken = HistoryContinuationToken(
    runID: string,
    branchToken: Blob,
    firstEventID: int,
    nextEventID: int,
    persistenceToken: Blob,
    replicationInfo: map<string, ReplicationInfo>)

  datatype GetRawHistoryRequest = GetRawHistoryRequest(
    domain: string,
    execution: Option<WorkflowExecution>,
    firstEventId: int,
    nextEventId: int,
    maximumPageSize: int,
    nextPageToken: Option<HistoryContinuationToken>)

  /** One paginated read of a branch, events [firstEventID, nextEventID). */
  datatype PaginateHistoryRequest = PaginateHistoryRequest(
    branchToken: Blob, firstEventID: int, nextEventID: int, persistenceToken: Blob, pageSize: int)

  datatype HistoryPage = HistoryPage(historyBatches: seq<Blob>, persistenceToken: Blob, size: int)

  datatype GetRawHistoryResponse = GetRawHistoryResponse(
    historyBatches: seq<Blob>,
    replicationInfo: map<string, ReplicationInfo>,
    nextPageToken: Option<HistoryContinuationToken>)

  /** A continuation token is only accepted for the same run and first event,
      and only when the request does not ask for less than the token does. */
  function ValidateHistoryToken(request: GetRawHistoryRequest, token: HistoryContinuationToken): (r: Outcome<ServiceError>)
    ensures r.Pass? <==>
      RunIdOf(request.execution) == token.runID && request.firstEventId == token.firstEventID && token.nextEventID <= request.nextEventId
    ensures r.Fail? ==> r.error == BadRequestError("Invalid pagination token.")
  {
    if RunIdOf(request.execution) != token.runID
       || request.firstEventId != token.firstEventID
       || request.nextEventId < token.nextEventID
    then Fail(BadRequestError("Invalid pagination token."))
    else Pass
  }

  /** The token of a first page: the requested range with its end clamped to
      the mutable state's next event id, so that no event beyond what the
      mutable state knows is ever served. */
  function InitialHistoryToken(request: GetRawHistoryRequest, mutableState: Result<MutableStateInfo, ServiceError>): (t: Result<HistoryContinuationToken, ServiceError>)
    ensures request.firstEventId < 0 || request.firstEventId > request.nextEventId ==>
      t == Failure(BadRequestError("Invalid FirstEventID && NextEventID combination."))
    ensures 0 <= request.firstEventId <= request.nextEventId ==>
      (t.Success? <==> mutableState.Success?) && (mutableState.Failure? ==> t == Failure(mutableState.error))
    ensures t.Success? ==>
      && t.value.firstEventID == request.firstEventId >= 0
      && t.value.nextEventID <= request.nextEventId
      && t.value.nextEventID <= mutableState.value.nextEventId
      && (t.value.nextEventID == request.nextEventId || t.value.nextEventID == mutableState.value.nextEventId)
      && t.value.runID == RunIdOf(request.execution)
      && t.value.branchToken == mutableState.value.currentBranchToken
      && t.value.persistenceToken == []
      && t.value.replicationInfo == mutableState.value.replicationInfo
  {
    if request.firstEventId < 0 || request.firstEventId > request.nextEventId then
      Failure(BadRequestError("Invalid FirstEventID && NextEventID combination."))
    else if mutableState.Failure? then Failure(mutableState.error)
    else
      var nextEventID :=
        if request.nextEventId > mutableState.value.nextEventId then mutableState.value.nextEventId else request.nextEventId;
      Success(HistoryContinuationToken(
        RunIdOf(request.execution), mutableState.value.currentBranchToken,
        request.firstEventId, nextEventID, [], mutableState.value.replicationInfo))
  }

  /** The token the read starts from (lines 319-370): the request's own,
      once checked, or a fresh one. */
  function StartHistoryToken(request: GetRawHistoryRequest, mutableState: Result<MutableStateInfo, ServiceError>): (t: Result<HistoryContinuationToken, ServiceError>)
    ensures request.nextPageToken.Some? ==>
      t == (if ValidateHistoryToken(request, request.nextPageToken.value).Pass? then Success(request.nextPageToken.value)
            else Failure(BadRequestError("Invalid pagination token.")))
    ensures request.nextPageToken.None? ==> t == InitialHistoryToken(request, mutableState)
  {
    if request.nextPageToken.Some? then
      match ValidateHistoryToken(request, request.nextPageToken.value)
      case Pass => Success(request.nextPageToken.value)
      case Fail(e) => Failure(e)
    else InitialHistoryToken(request, mutableState)
  }

  /** Lines 372-436: an empty range answers at once; otherwise one page is
      read, a missing history reads as empty, and the next-page token is the
      read's token carried forward, absent on the last page. */
  function FinishRawHistory(
    token: HistoryContinuationToken, pageSize: int, paginateHistory: PaginateHistoryRequest -> Result<HistoryPage, ServiceError>
  ): (r: Result<GetRawHistoryResponse, ServiceError>)
    ensures token.firstEventID >= token.nextEventID ==> r == Success(GetRawHistoryResponse([], token.replicationInfo, None))
    ensures r.Success? ==> r.value.replicationInfo == token.replicationInfo
    ensures r.Success? && r.value.nextPageToken.Some? ==>
      && token.firstEventID < token.nextEventID
      && |r.value.nextPageToken.value.persistenceToken| > 0
      && r.value.nextPageToken.value == token.(persistenceToken := r.value.nextPageToken.value.persistenceToken)
    ensures token.firstEventID < token.nextEventID ==>
      var page := paginateHistory(PaginateHistoryRequest(token.branchToken, token.firstEventID, token.nextEventID, token.persistenceToken, pageSize));
      && (r.Failure? <==> page.Failure? && !page.error.EntityNotExistsError?)
      && (r.Failure? ==> r.error == page.error)
      && (page.Failure? && page.error.EntityNotExistsError? ==> r == Success(GetRawHistoryResponse([], token.replicationInfo, None)))
      && (page.Success? ==> r.value.historyBatches == page.value.historyBatches)
      && (page.Success? ==> (r.value.nextPageToken.Some? <==> |page.value.persistenceToken| > 0))
      && (page.Success? && r.value.nextPageToken.Some? ==> r.value.nextPageToken.value.persistenceToken == page.value.persistenceToken)
  {
    if token.firstEventID >= token.nextEventID then Success(GetRawHistoryResponse([], token.replicationInfo, None))
    else
      var page := paginateHistory(PaginateHistoryRequest(token.branchToken, token.firstEventID, token.nextEventID, token.persistenceToken, pageSize));
      if page.Failure? then
        if page.error.EntityNotExistsError? then Success(GetRawHistoryResponse([], token.replicationInfo, None))
        else Failure(page.error)
      else
        var next := token.(persistenceToken := page.value.persistenceToken);
        Success(GetRawHistoryResponse(
          page.value.historyBatches, next.replicationInfo,
          if |next.persistenceToken| == 0 then None else Some(next)))
  }

  /** GetWorkflowExecutionRawHistory (lines 285-437). `domainID` is the
      domain-cache lookup, `mutableState` the history service's answer and
      `paginateHistory` the storage read. */
  method GetWorkflowExecutionRawHistory(
    request: GetRawHistoryRequest,
    isUUID: string -> bool,
    domainID: Result<string, ServiceError>,
    mutableState: Result<MutableStateInfo, ServiceError>,
    paginateHistory: PaginateHistoryRequest -> Result<HistoryPage, ServiceError>
  ) returns (r: Result<GetRawHistoryResponse, ServiceError>)
    ensures domainID.Failure? ==> r == Failure(HandlerError(domainID.error))
    ensures domainID.Success? && ValidateRawHistoryTarget(request.execution, request.maximumPageSize, isUUID).Fail? ==>
      r == Failure(ValidateRawHistoryTarget(request.execution, request.maximumPageSize, isUUID).error)
    ensures domainID.Success? && ValidateRawHistoryTarget(request.execution, request.maximumPageSize, isUUID).Pass? ==>
      r == match StartHistoryToken(request, mutableState)
           case Failure(e) => Failure(e)
           case Success(token) => FinishRawHistory(token, request.maximumPageSize, paginateHistory)
  {
    if domainID.Failure? {
      return Failure(HandlerError(domainID.error));
    }
    var check := ValidateRawHistoryTarget(request.execution, request.maximumPageSize, isUUID);
    if check.Fail? {
      return Failure(check.error);
    }
    var token :- StartHistoryToken(request, mutableState);
    r := FinishRawHistory(token, request.maximumPageSize, paginateHistory);
  }

  /** The next-page token a first page hands out is accepted when the same
      request comes back with it, and the second page continues the same
      read from the storage token; the mutable state is not consulted again. */
  lemma RawHistoryPaginationContinues(
    request: GetRawHistoryRequest,
    mutableState: Result<MutableStateInfo, ServiceError>,
    laterMutableState: Result<MutableStateInfo, ServiceError>,
    paginateHistory: PaginateHistoryRequest -> Result<HistoryPage, ServiceError>
  )
    requires request.nextPageToken.None?
    requires StartHistoryToken(request, mutableState).Success?
    requires FinishRawHistory(StartHistoryToken(request, mutableState).value, request.maximumPageSize, paginateHistory).Success?
    requires FinishRawHistory(StartHistoryToken(request, mutableState).value, request.maximumPageSize, paginateHistory).value.nextPageToken.Some?
    ensures var first := StartHistoryToken(request, mutableState).value;
      var next := FinishRawHistory(first, request.maximumPageSize, paginateHistory).value.nextPageToken.value;
      && StartHistoryToken(request.(nextPageToken := Some(next)), laterMutableState) == Success(next)
      && next.firstEventID == first.firstEventID
      && next.nextEventID == first.nextEventID
      && next.branchToken == first.branchToken
  {
  }

  // ========================================== GetWorkflowExecutionRawHistoryV2

  /** The four range fields of a V2 request. The API range is exclusive at
      both ends. */
  datatype EventRange = EventRange(startEventId: int, startEventVersion: int, endEventId: int, endEventVersion: int)

  function StartItemOf(r: EventRange): VersionHistoryItem
  {
    VersionHistoryItem(r.startEventId, r.startEventVersion)
  }

  function EndItemOf(r: EventRange): VersionHistoryItem
  {
    VersionHistoryItem(r.endEventId, r.endEventVersion)
  }

  datatype RawHistoryV2Token = RawHistoryV2Token(
    domainName: string,
    workflowID: string,
    runID: string,
    startEventID: int,
    startEventVersion: int,
    endEventID: int,
    endEventVersion: int,
    persistenceToken: Blob,
    versionHistories: Option<VersionHistories>)

  /** The V2 request. The handler rewrites its range fields in place while it
      resolves them and reads them back afterwards. */
  class GetRawHistoryV2Request {
    const domain: string
    const execution: Option<WorkflowExecution>
    var startEventId: int
    var startEventVersion: int
    var endEventId: int
    var endEventVersion: int
    const maximumPageSize: int
    const nextPageToken: Option<RawHistoryV2Token>

    constructor (
      domain: string, execution: Option<WorkflowExecution>, range: EventRange,
      maximumPageSize: int, nextPageToken: Option<RawHistoryV2Token>)
      ensures this.domain == domain && this.execution == execution && Range() == range
      ensures this.maximumPageSize == maximumPageSize && this.nextPageToken == nextPageToken
    {
      this.domain := domain;
      this.execution := execution;
      this.maximumPageSize := maximumPageSize;
      this.nextPageToken := nextPageToken;
      startEventId := range.startEventId;
      startEventVersion := range.startEventVersion;
      endEventId := range.endEventId;
      endEventVersion := range.endEventVersion;
    }

    function Range(): EventRange
      reads this
    {
      EventRange(startEventId, startEventVersion, endEventId, endEventVersion)
    }
  }

  /** An id/version pair is either wholly set or wholly unset. */
  predicate PairConsistent(id: int, version: int)
  {
    (id == Common.EmptyEventID) == (version == Common.EmptyVersion)
  }

  predicate RangeUnset(r: EventRange)
  {
    && r.startEventId == Common.EmptyEventID && r.startEventVersion == Common.EmptyVersion
    && r.endEventId == Common.EmptyEventID && r.endEventVersion == Common.EmptyVersion
  }

  /** validateGetWorkflowExecutionRawHistoryV2Request (lines 758-795). */
  function ValidateRawHistoryV2Request(
    execution: Option<WorkflowExecution>, maximumPageSize: int, r: EventRange, isUUID: string -> bool
  ): (o: Outcome<ServiceError>)
    ensures o.Pass? <==>
      && ValidateRawHistoryTarget(execution, maximumPageSize, isUUID).Pass?
      && !RangeUnset(r)
      && PairConsistent(r.startEventId, r.startEventVersion)
      && PairConsistent(r.endEventId, r.endEventVersion)
    ensures ValidateRawHistoryTarget(execution, maximumPageSize, isUUID).Fail? ==>
      o == ValidateRawHistoryTarget(execution, maximumPageSize, isUUID)
    ensures ValidateRawHistoryTarget(execution, maximumPageSize, isUUID).Pass? && RangeUnset(r) ==>
      o == Fail(BadRequestError("Invalid event query range."))
    ensures ValidateRawHistoryTarget(execution, maximumPageSize, isUUID).Pass? && !RangeUnset(r)
            && !PairConsistent(r.startEventId, r.startEventVersion) ==>
      o == Fail(BadRequestError("Invalid start event id and start event version combination."))
    ensures ValidateRawHistoryTarget(execution, maximumPageSize, isUUID).Pass? && !RangeUnset(r)
            && PairConsistent(r.startEventId, r.startEventVersion) && !PairConsistent(r.endEventId, r.endEventVersion) ==>
      o == Fail(BadRequestError("Invalid end event id and end event version combination."))
  {
    var target := ValidateRawHistoryTarget(execution, maximumPageSize, isUUID);
    if target.Fail? then target
    else if r.startEventId == Common.EmptyEventID && r.startEventVersion == Common.EmptyVersion
         && r.endEventId == Common.EmptyEventID && r.endEventVersion == Common.EmptyVersion
    then Fail(BadRequestError("Invalid event query range."))
    else if (r.startEventId != Common.EmptyEventID && r.startEventVersion == Common.EmptyVersion)
         || (r.startEventId == Common.EmptyEventID && r.startEventVersion != Common.EmptyVersion)
    then Fail(BadRequestError("Invalid start event id and start event version combination."))
    else if (r.endEventId != Common.EmptyEventID && r.endEventVersion == Common.EmptyVersion)
         || (r.endEventId == Common.EmptyEventID && r.endEventVersion != Common.EmptyVersion)
    then Fail(BadRequestError("Invalid end event id and end event version combination."))
    else Pass
  }

  // ---------------------------------------------- range resolution (804-882)

  /** The current branch with its first and last items. */
  datatype Bounds = Bounds(current: VersionHistory, first: VersionHistoryItem, last: VersionHistoryItem)

  function CurrentBounds(vhs: VersionHistories): (b: Result<Bounds, ServiceError>)
    ensures b.Success? <==>
      0 <= vhs.currentIndex < |vhs.histories| && |vhs.histories[vhs.currentIndex].items| > 0
    ensures b.Success? ==>
      var items := vhs.histories[vhs.currentIndex].items;
      b.value == Bounds(vhs.histories[vhs.currentIndex], items[0], items[|items| - 1])
  {
    var current :- GetCurrentVersionHistory(vhs);
    var first :- GetFirstItem(current);
    Success(Bounds(current, first, GetLastItem(current).value))
  }

  /** The start test of line 822, which compares the start event id with the
      empty *version*. */
  predicate StartUnset(r: EventRange)
  {
    r.startEventId == Common.EmptyVersion || r.startEventVersion == Common.EmptyVersion
  }

  predicate EndUnset(r: EventRange)
  {
    r.endEventId == Common.EmptyEventID || r.endEventVersion == Common.EmptyVersion
  }

  /** The start that stands for "from the first event", the API being
      exclusive. */
  predicate StartIsDefault(r: EventRange, first: VersionHistoryItem)
  {
    r.startEventId == Common.FirstEventID - 1 && r.startEventVersion == first.version
  }

  /** The end that stands for "through the last event". */
  predicate EndIsDefault(r: EventRange, last: VersionHistoryItem)
  {
    r.endEventId == last.eventID + 1 && r.endEventVersion == last.version
  }

  /** Lines 822-833: unset bounds are filled in from the current branch. */
  function DefaultRange(r: EventRange, first: VersionHistoryItem, last: VersionHistoryItem): (d: EventRange)
    ensures first.version != Common.EmptyVersion && last.version != Common.EmptyVersion
            && last.eventID + 1 != Common.EmptyEventID ==>
      !StartUnset(d) && !EndUnset(d)
    ensures StartUnset(r) || d.startEventId == r.startEventId
    ensures EndUnset(r) || d.endEventId == r.endEventId
  {
    var r1 :=
      if StartUnset(r) then r.(startEventId := Common.FirstEventID - 1, startEventVersion := first.version) else r;
    if EndUnset(r1) then r1.(endEventId := last.eventID + 1, endEventVersion := last.version) else r1
  }

  /** After defaulting, an unset bound is the default bound and a set one is
      the request's own. */
  lemma DefaultRangeFillsUnsetBounds(r: EventRange, first: VersionHistoryItem, last: VersionHistoryItem)
    ensures StartUnset(r) ==> StartIsDefault(DefaultRange(r, first, last), first)
    ensures !StartUnset(r) ==> StartItemOf(DefaultRange(r, first, last)) == StartItemOf(r)
    ensures EndUnset(r) ==> EndIsDefault(DefaultRange(r, first, last), last)
    ensures !EndUnset(r) ==> EndItemOf(DefaultRange(r, first, last)) == EndItemOf(r)
  {
  }

  /** Lines 839-854: the branch to read. It is the current branch when the
      end is the current branch's default end, and otherwise the first branch
      that contains the end event; there may be none. */
  function SelectTargetBranch(vhs: VersionHistories, current: VersionHistory, last: VersionHistoryItem, d: EventRange): (t: Result<VersionHistory, ServiceError>)
    ensures EndIsDefault(d, last) ==> t == Success(current)
    ensures !EndIsDefault(d, last) ==>
      (t.Success? <==> exists i | 0 <= i < |vhs.histories| :: ContainsItem(vhs.histories[i], EndItemOf(d)))
    ensures !EndIsDefault(d, last) && t.Success? ==>
      exists i | 0 <= i < |vhs.histories| ::
        && t.value == vhs.histories[i]
        && ContainsItem(vhs.histories[i], EndItemOf(d))
        && forall j | 0 <= j < i :: !ContainsItem(vhs.histories[j], EndItemOf(d))
  {
    if EndIsDefault(d, last) then Success(current)
    else
      var idx :- FindFirstVersionHistoryIndexByItem(vhs, EndItemOf(d));
      GetVersionHistory(vhs, idx)
  }

  /** Lines 856-879: the start is kept when it is the default start or lies on
      the target branch; otherwise it moves to the lowest common ancestor of
      the target branch and the first branch that contains it. */
  function AdjustStart(vhs: VersionHistories, target: VersionHistory, first: VersionHistoryItem, d: EventRange): (a: Result<EventRange, ServiceError>)
    ensures StartIsDefault(d, first) || ContainsItem(target, StartItemOf(d)) ==> a == Success(d)
    ensures a.Success? ==> EndItemOf(a.value) == EndItemOf(d)
    ensures !StartIsDefault(d, first) && !ContainsItem(target, StartItemOf(d)) && a.Success? ==>
      exists i | 0 <= i < |vhs.histories| ::
        && ContainsItem(vhs.histories[i], StartItemOf(d))
        && (forall j | 0 <= j < i :: !ContainsItem(vhs.histories[j], StartItemOf(d)))
        && FindLCAItem(target, vhs.histories[i]) == Success(StartItemOf(a.value))
    ensures !StartIsDefault(d, first) && !ContainsItem(target, StartItemOf(d))
            && (forall i | 0 <= i < |vhs.histories| :: !ContainsItem(vhs.histories[i], StartItemOf(d))) ==>
      a.Failure?
    ensures !StartIsDefault(d, first) && !ContainsItem(target, StartItemOf(d)) ==>
      (a.Success? <==>
        && FindFirstVersionHistoryIndexByItem(vhs, StartItemOf(d)).Success?
        && FindLCAItem(target, vhs.histories[FindFirstVersionHistoryIndexByItem(vhs, StartItemOf(d)).value]).Success?)
  {
    if StartIsDefault(d, first) then Success(d)
    else if ContainsItem(target, StartItemOf(d)) then Success(d)
    else
      var idx :- FindFirstVersionHistoryIndexByItem(vhs, StartItemOf(d));
      var startBranch := GetVersionHistory(vhs, idx).value;
      var lca :- FindLCAItem(target, startBranch);
      Success(d.(startEventId := lca.eventID, startEventVersion := lca.version))
  }

  /** A resolved request: its final range and the branch to read. */
  datatype Resolution = Resolution(range: EventRange, target: VersionHistory)

  /** setRequestDefaultValueAndGetTargetVersionHistory on values: current
      branch bounds, defaulting, the negative-start check, the target branch
      and the start adjustment, each failure ending the call. */
  function ResolveRange(r: EventRange, vhs: VersionHistories): (res: Result<Resolution, ServiceError>)
    ensures CurrentBounds(vhs).Failure? ==> res == Failure(CurrentBounds(vhs).error)
    ensures CurrentBounds(vhs).Success? ==>
      var b := CurrentBounds(vhs).value;
      var d := DefaultRange(r, b.first, b.last);
      && (d.startEventId < 0 ==> res == Failure(BadRequestError("Invalid FirstEventID && NextEventID combination.")))
      && (res.Success? ==>
            && d.startEventId >= 0
            && SelectTargetBranch(vhs, b.current, b.last, d) == Success(res.value.target)
            && AdjustStart(vhs, res.value.target, b.first, d) == Success(res.value.range))
      && ((d.startEventId >= 0 && SelectTargetBranch(vhs, b.current, b.last, d).Success?
           && AdjustStart(vhs, SelectTargetBranch(vhs, b.current, b.last, d).value, b.first, d).Success?) ==> res.Success?)
  {
    var b :- CurrentBounds(vhs);
    var d := DefaultRange(r, b.first, b.last);
    if d.startEventId < 0 then Failure(BadRequestError("Invalid FirstEventID && NextEventID combination."))
    else
      var target :- SelectTargetBranch(vhs, b.current, b.last, d);
      var adjusted :- AdjustStart(vhs, target, b.first, d);
      Success(Resolution(adjusted, target))
  }

  /** The range fields a request holds after resolution, whether it succeeded
      or not: untouched when the current branch could not be read, the
      defaulted range after a later failure, the resolved range on success. */
  function RangeAfterResolve(r: EventRange, vhs: VersionHistories): (ra: EventRange)
    ensures CurrentBounds(vhs).Failure? ==> ra == r
    ensures ResolveRange(r, vhs).Success? ==> ra == ResolveRange(r, vhs).value.range
    ensures CurrentBounds(vhs).Success? ==>
      var b := CurrentBounds(vhs).value;
      && EndItemOf(ra) == EndItemOf(DefaultRange(r, b.first, b.last))
      && (ResolveRange(r, vhs).Failure? ==> ra == DefaultRange(r, b.first, b.last))
  {
    match CurrentBounds(vhs)
    case Failure(_) => r
    case Success(b) =>
      match ResolveRange(r, vhs)
      case Success(res) => res.range
      case Failure(_) => DefaultRange(r, b.first, b.last)
  }

  /** An unset end reads through the current branch's last event, on the
      current branch. */
  lemma ResolveRangeDefaultEnd(r: EventRange, vhs: VersionHistories)
    requires EndUnset(r)
    requires ResolveRange(r, vhs).Success?
    ensures var b := CurrentBounds(vhs).value;
      && ResolveRange(r, vhs).value.target == b.current
      && EndItemOf(ResolveRange(r, vhs).value.range) == VersionHistoryItem(b.last.eventID + 1, b.last.version)
  {
  }

  /** An unset start reads from the first event. */
  lemma ResolveRangeDefaultStart(r: EventRange, vhs: VersionHistories)
    requires StartUnset(r)
    requires ResolveRange(r, vhs).Success?
    ensures var b := CurrentBounds(vhs).value;
      StartItemOf(ResolveRange(r, vhs).value.range) == VersionHistoryItem(Common.FirstEventID - 1, b.first.version)
  {
  }

  /** A start event id equal to the empty version passes validation when its
      version is set, and is then treated as unset (the start becomes the
      first event) rather than rejected as negative. */
  lemma StartIdEqualToEmptyVersionIsDefaulted(
    execution: Option<WorkflowExecution>, maximumPageSize: int, r: EventRange, vhs: VersionHistories, isUUID: string -> bool)
    requires ValidateRawHistoryTarget(execution, maximumPageSize, isUUID).Pass?
    requires r.startEventId == Common.EmptyVersion && r.startEventVersion != Common.EmptyVersion
    requires PairConsistent(r.endEventId, r.endEventVersion)
    requires CurrentBounds(vhs).Success?
    ensures ValidateRawHistoryV2Request(execution, maximumPageSize, r, isUUID).Pass?
    ensures StartIsDefault(DefaultRange(r, CurrentBounds(vhs).value.first, CurrentBounds(vhs).value.last), CurrentBounds(vhs).value.first)
  {
  }

  /** setRequestDefaultValueAndGetTargetVersionHistory: rewrites the
      request's range in place and returns the branch to read. */
  method SetRequestDefaultValueAndGetTargetVersionHistory(request: GetRawHistoryV2Request, versionHistories: VersionHistories)
    returns (r: Result<VersionHistory, ServiceError>)
    modifies request
    ensures request.Range() == RangeAfterResolve(old(request.Range()), versionHistories)
    ensures r.Success? <==> ResolveRange(old(request.Range()), versionHistories).Success?
    ensures r.Success? ==> r.value == ResolveRange(old(request.Range()), versionHistories).value.target
    ensures r.Failure? ==> r.error == ResolveRange(old(request.Range()), versionHistories).error
  {
    ghost var original := request.Range();
    var currentBranch :- GetCurrentVersionHistory(versionHistories);
    var firstItem :- GetFirstItem(currentBranch);
    var lastItem := GetLastItem(currentBranch).value;
    assert CurrentBounds(versionHistories) == Success(Bounds(currentBranch, firstItem, lastItem));

    // unset bounds are filled in from the current branch, in place
    if request.startEventId == Common.EmptyVersion || request.startEventVersion == Common.EmptyVersion {
      request.startEventId := Common.FirstEventID - 1;
      request.startEventVersion := firstItem.version;
    }
    if request.endEventId == Common.EmptyEventID || request.endEventVersion == Common.EmptyVersion {
      request.endEventId := lastItem.eventID + 1;
      request.endEventVersion := lastItem.version;
    }
    assert request.Range() == DefaultRange(original, firstItem, lastItem);

    if request.startEventId < 0 {
      return Failure(BadRequestError("Invalid FirstEventID && NextEventID combination."));
    }
    var targetBranch :- SelectTargetBranch(versionHistories, currentBranch, lastItem, request.Range());
    var adjusted :- AdjustStart(versionHistories, targetBranch, firstItem, request.Range());
    request.startEventId := adjusted.startEventId;
    request.startEventVersion := adjusted.startEventVersion;
    return Success(targetBranch);
  }

  // ------------------------------------------- pagination token (884-919)

  function GeneratePaginationToken(
    domain: string, execution: Option<WorkflowExecution>, r: EventRange, vhs: VersionHistories
  ): (t: RawHistoryV2Token)
    ensures t.persistenceToken == [] && t.versionHistories == Some(vhs)
    ensures ValidatePaginationToken(domain, execution, r, t).Pass?
  {
    RawHistoryV2Token(
      domain, WorkflowIdOf(execution), RunIdOf(execution),
      r.startEventId, r.startEventVersion, r.endEventId, r.endEventVersion,
      [], Some(vhs))
  }

  /** A token is accepted only for the request it was made for: same domain,
      workflow, run and range. */
  function ValidatePaginationToken(
    domain: string, execution: Option<WorkflowExecution>, r: EventRange, token: RawHistoryV2Token
  ): (o: Outcome<ServiceError>)
    ensures o.Pass? <==>
      && domain == token.domainName
      && WorkflowIdOf(execution) == token.workflowID
      && RunIdOf(execution) == token.runID
      && r == EventRange(token.startEventID, token.startEventVersion, token.endEventID, token.endEventVersion)
    ensures o.Fail? ==> o.error == BadRequestError("Invalid pagination token.")
  {
    if domain != token.domainName
       || WorkflowIdOf(execution) != token.workflowID
       || RunIdOf(execution) != token.runID
       || r.startEventId != token.startEventID
       || r.startEventVersion != token.startEventVersion
       || r.endEventId != token.endEventID
       || r.endEventVersion != token.endEventVersion
    then Fail(BadRequestError("Invalid pagination token."))
    else Pass
  }

  /** A token passes exactly when it is the token the request would generate,
      up to its storage token and the histories it carries. */
  lemma PaginationTokenValidIffGenerated(
    domain: string, execution: Option<WorkflowExecution>, r: EventRange, token: RawHistoryV2Token, vhs: VersionHistories)
    ensures ValidatePaginationToken(domain, execution, r, token).Pass? <==>
      token.(persistenceToken := [], versionHistories := Some(vhs)) == GeneratePaginationToken(domain, execution, r, vhs)
  {
  }

  // --------------------------------------------- the storage read (506-568)

  datatype ReadHistoryBranchRequest = ReadHistoryBranchRequest(
    branchToken: Blob, minEventID: int, maxEventID: int, pageSize: int, nextPageToken: Blob)

  datatype RawHistoryPage = RawHistoryPage(historyEventBlobs: seq<Blob>, nextPageToken: Blob, size: int)

  datatype RawHistoryV2Response = RawHistoryV2Response(
    historyBatches: seq<Blob>, nextPageToken: Option<RawHistoryV2Token>, versionHistory: VersionHistory)

  /** The storage read for the API's exclusive-exclusive range: none when
      the start and end are adjacent, else the same events as an
      inclusive-exclusive read. */
  function StorageRead(token: RawHistoryV2Token, target: VersionHistory, pageSize: int): (q: Option<ReadHistoryBranchRequest>)
    ensures q.None? <==> token.startEventID + 1 == token.endEventID
    ensures q.Some? ==>
      && q.value.branchToken == target.branchToken
      && q.value.pageSize == pageSize
      && q.value.nextPageToken == token.persistenceToken
  {
    if token.startEventID + 1 == token.endEventID then None
    else Some(ReadHistoryBranchRequest(target.branchToken, token.startEventID + 1, token.endEventID, pageSize, token.persistenceToken))
  }

  /** The storage read covers exactly the events strictly between the API's
      start and end. */
  lemma StorageReadCoversOpenRange(token: RawHistoryV2Token, target: VersionHistory, pageSize: int, e: int)
    requires StorageRead(token, target, pageSize).Some?
    ensures var q := StorageRead(token, target, pageSize).value;
      q.minEventID <= e < q.maxEventID <==> token.startEventID < e < token.endEventID
  {
  }

  /** Lines 506-568 once the token is validated. */
  function FinishRawHistoryV2(
    token: RawHistoryV2Token, target: VersionHistory, pageSize: int,
    readRawHistoryBranch: ReadHistoryBranchRequest -> Result<RawHistoryPage, ServiceError>
  ): (r: Result<RawHistoryV2Response, ServiceError>)
    ensures StorageRead(token, target, pageSize).None? ==> r == Success(RawHistoryV2Response([], None, target))
    ensures r.Success? ==> r.value.versionHistory == target
    ensures r.Success? && r.value.nextPageToken.Some? ==>
      && StorageRead(token, target, pageSize).Some?
      && |r.value.nextPageToken.value.persistenceToken| > 0
      && r.value.nextPageToken.value == token.(persistenceToken := r.value.nextPageToken.value.persistenceToken)
    ensures StorageRead(token, target, pageSize).Some? ==>
      var page := readRawHistoryBranch(StorageRead(token, target, pageSize).value);
      && (r.Failure? <==> page.Failure? && !page.error.EntityNotExistsError?)
      && (r.Failure? ==> r.error == page.error)
      && (page.Failure? && page.error.EntityNotExistsError? ==> r == Success(RawHistoryV2Response([], None, target)))
      && (page.Success? ==> r.value.historyBatches == page.value.historyEventBlobs)
      && (page.Success? ==> (r.value.nextPageToken.Some? <==> |page.value.nextPageToken| > 0))
      && (page.Success? && r.value.nextPageToken.Some? ==> r.value.nextPageToken.value.persistenceToken == page.value.nextPageToken)
  {
    match StorageRead(token, target, pageSize)
    case None => Success(RawHistoryV2Response([], None, target))
    case Some(q) =>
      var page := readRawHistoryBranch(q);
      if page.Failure? then
        if page.error.EntityNotExistsError? then Success(RawHistoryV2Response([], None, target))
        else Failure(page.error)
      else
        var next := token.(persistenceToken := page.value.nextPageToken);
        Success(RawHistoryV2Response(
          page.value.historyEventBlobs, if |next.persistenceToken| == 0 then None else Some(next), target))
  }

  /** The version histories a V2 call resolves against: the mutable state's
      on a first page, the token's own afterwards. */
  function HistoriesFor(nextPageToken: Option<RawHistoryV2Token>, mutableStateHistories: Result<VersionHistories, ServiceError>): (h: Result<VersionHistories, ServiceError>)
    ensures nextPageToken.None? ==> h == mutableStateHistories
    ensures nextPageToken.Some? ==>
      (h.Success? <==> nextPageToken.value.versionHistories.Some?)
      && (h.Success? ==> h.value == nextPageToken.value.versionHistories.value)
  {
    if nextPageToken.None? then mutableStateHistories
    else if nextPageToken.value.versionHistories.None? then Failure(BadRequestError("Invalid version histories."))
    else Success(nextPageToken.value.versionHistories.value)
  }

  /** GetWorkflowExecutionRawHistoryV2 (lines 440-569) on values: the response
      and the range fields the request is left with. */
  function RawHistoryV2(
    domain: string, execution: Option<WorkflowExecution>, maximumPageSize: int,
    nextPageToken: Option<RawHistoryV2Token>, range: EventRange,
    isUUID: string -> bool,
    domainID: Result<string, ServiceError>,
    mutableStateHistories: Result<VersionHistories, ServiceError>,
    readRawHistoryBranch: ReadHistoryBranchRequest -> Result<RawHistoryPage, ServiceError>
  ): (out: (Result<RawHistoryV2Response, ServiceError>, EventRange))
    ensures ValidateRawHistoryV2Request(execution, maximumPageSize, range, isUUID).Fail? ==>
      out == (Failure(HandlerError(ValidateRawHistoryV2Request(execution, maximumPageSize, range, isUUID).error)), range)
    ensures out.0.Success? ==>
      && ValidateRawHistoryV2Request(execution, maximumPageSize, range, isUUID).Pass?
      && domainID.Success?
      && HistoriesFor(nextPageToken, mutableStateHistories).Success?
      && ResolveRange(range, HistoriesFor(nextPageToken, mutableStateHistories).value).Success?
    ensures out.0.Success? ==>
      var res := ResolveRange(range, HistoriesFor(nextPageToken, mutableStateHistories).value).value;
      out.1 == res.range && out.0.value.versionHistory == res.target
    ensures ValidateRawHistoryV2Request(execution, maximumPageSize, range, isUUID).Pass? && domainID.Failure? ==>
      out == (Failure(HandlerError(domainID.error)), range)
    ensures
      && ValidateRawHistoryV2Request(execution, maximumPageSize, range, isUUID).Pass?
      && domainID.Success?
      && HistoriesFor(nextPageToken, mutableStateHistories).Failure? ==>
      out == (Failure(HandlerError(HistoriesFor(nextPageToken, mutableStateHistories).error)), range)
    ensures
      && ValidateRawHistoryV2Request(execution, maximumPageSize, range, isUUID).Pass?
      && domainID.Success?
      && HistoriesFor(nextPageToken, mutableStateHistories).Success?
      && ResolveRange(range, HistoriesFor(nextPageToken, mutableStateHistories).value).Failure? ==>
      var vhs := HistoriesFor(nextPageToken, mutableStateHistories).value;
      out == (Failure(HandlerError(ResolveRange(range, vhs).error)), RangeAfterResolve(range, vhs))
    ensures
      && ValidateRawHistoryV2Request(execution, maximumPageSize, range, isUUID).Pass?
      && domainID.Success?
      && HistoriesFor(nextPageToken, mutableStateHistories).Success?
      && ResolveRange(range, HistoriesFor(nextPageToken, mutableStateHistories).value).Success? ==>
      var vhs := HistoriesFor(nextPageToken, mutableStateHistories).value;
      var res := ResolveRange(range, vhs).value;
      var token := if nextPageToken.None? then GeneratePaginationToken(domain, execution, res.range, vhs) else nextPageToken.value;
      && (ValidatePaginationToken(domain, execution, res.range, token).Pass? ==>
            out == (FinishRawHistoryV2(token, res.target, maximumPageSize, readRawHistoryBranch), res.range))
      && (ValidatePaginationToken(domain, execution, res.range, token).Fail? ==>
            out == (Failure(HandlerError(ValidatePaginationToken(domain, execution, res.range, token).error)), res.range))
  {
    match ValidateRawHistoryV2Request(execution, maximumPageSize, range, isUUID)
    case Fail(e) => (Failure(HandlerError(e)), range)
    case Pass =>
      if domainID.Failure? then (Failure(HandlerError(domainID.error)), range)
      else
        match HistoriesFor(nextPageToken, mutableStateHistories)
        case Failure(e) => (Failure(HandlerError(e)), range)
        case Success(vhs) =>
          match ResolveRange(range, vhs)
          case Failure(e) => (Failure(HandlerError(e)), RangeAfterResolve(range, vhs))
          case Success(res) =>
            var token :=
              if nextPageToken.None? then GeneratePaginationToken(domain, execution, res.range, vhs)
              else nextPageToken.value;
            match ValidatePaginationToken(domain, execution, res.range, token)
            case Fail(e) => (Failure(HandlerError(e)), res.range)
            case Pass => (FinishRawHistoryV2(token, res.target, maximumPageSize, readRawHistoryBranch), res.range)
  }

  /** The handler itself, rewriting the request's range in place. */
  method GetWorkflowExecutionRawHistoryV2(
    request: GetRawHistoryV2Request,
    isUUID: string -> bool,
    domainID: Result<string, ServiceError>,
    mutableStateHistories: Result<VersionHistories, ServiceError>,
    readRawHistoryBranch: ReadHistoryBranchRequest -> Result<RawHistoryPage, ServiceError>
  ) returns (r: Result<RawHistoryV2Response, ServiceError>)
    modifies request
    ensures (r, request.Range()) == RawHistoryV2(
      request.domain, request.execution, request.maximumPageSize, request.nextPageToken, old(request.Range()),
      isUUID, domainID, mutableStateHistories, readRawHistoryBranch)
  {
    ghost var range := request.Range();
    var check := ValidateRawHistoryV2Request(request.execution, request.maximumPageSize, request.Range(), isUUID);
    if check.Fail? {
      return Failure(HandlerError(check.error));
    }
    if domainID.Failure? {
      return Failure(HandlerError(domainID.error));
    }

    // a first page resolves against the mutable state, a later one against
    // the histories its token carries
    var versionHistories: VersionHistories;
    if request.nextPageToken.None? {
      if mutableStateHistories.Failure? {
        return Failure(HandlerError(mutableStateHistories.error));
      }
      versionHistories := mutableStateHistories.value;
    } else {
      if request.nextPageToken.value.versionHistories.None? {
        return Failure(HandlerError(BadRequestError("Invalid version histories.")));
      }
      versionHistories := request.nextPageToken.value.versionHistories.value;
    }
    assert HistoriesFor(request.nextPageToken, mutableStateHistories) == Success(versionHistories);

    var target := SetRequestDefaultValueAndGetTargetVersionHistory(request, versionHistories);
    if target.Failure? {
      return Failure(HandlerError(target.error));
    }
    var pageToken :=
      if request.nextPageToken.None? then GeneratePaginationToken(request.domain, request.execution, request.Range(), versionHistories)
      else request.nextPageToken.value;

    var tokenCheck := ValidatePaginationToken(request.domain, request.execution, request.Range(), pageToken);
    if tokenCheck.Fail? {
      return Failure(HandlerError(tokenCheck.error));
    }
    r := FinishRawHistoryV2(pageToken, target.value, request.maximumPageSize, readRawHistoryBranch);
  }

  /** The next-page token of a first page is accepted when the same request
      comes back with it: resolution against the histories the token carries
      gives back the same range and branch, and the read resumes from the
      storage token. */
  lemma {:induction false} RawHistoryV2PaginationContinues(
    domain: string, execution: Option<WorkflowExecution>, maximumPageSize: int, range: EventRange,
    isUUID: string -> bool, domainID: Result<string, ServiceError>,
    mutableStateHistories: Result<VersionHistories, ServiceError>,
    laterMutableStateHistories: Result<VersionHistories, ServiceError>,
    readRawHistoryBranch: ReadHistoryBranchRequest -> Result<RawHistoryPage, ServiceError>,
    laterReadRawHistoryBranch: ReadHistoryBranchRequest -> Result<RawHistoryPage, ServiceError>
  )
    requires RawHistoryV2(domain, execution, maximumPageSize, None, range, isUUID, domainID, mutableStateHistories, readRawHistoryBranch).0.Success?
    requires RawHistoryV2(domain, execution, maximumPageSize, None, range, isUUID, domainID, mutableStateHistories, readRawHistoryBranch).0.value.nextPageToken.Some?
    ensures
      var first := RawHistoryV2(domain, execution, maximumPageSize, None, range, isUUID, domainID, mutableStateHistories, readRawHistoryBranch);
      var next := first.0.value.nextPageToken.value;
      RawHistoryV2(domain, execution, maximumPageSize, Some(next), range, isUUID, domainID, laterMutableStateHistories, laterReadRawHistoryBranch)
        == (FinishRawHistoryV2(next, first.0.value.versionHistory, maximumPageSize, laterReadRawHistoryBranch), first.1)
  {
    var first := RawHistoryV2(domain, execution, maximumPageSize, None, range, isUUID, domainID, mutableStateHistories, readRawHistoryBranch);
    var next := first.0.value.nextPageToken.value;
    var vhs := mutableStateHistories.value;
    var res := ResolveRange(range, vhs).value;
    var token := GeneratePaginationToken(domain, execution, res.range, vhs);
    assert first.0 == FinishRawHistoryV2(token, res.target, maximumPageSize, readRawHistoryBranch);
    assert next == token.(persistenceToken := next.persistenceToken);
    assert HistoriesFor(Some(next), laterMutableStateHistories) == Success(vhs);
    assert ValidatePaginationToken(domain, execution, res.range, next).Pass?;
  }
}
