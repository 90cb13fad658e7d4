# Raw-history resolution, conflict resolution and enum adapters, in Dafny

This project models three pieces of a multi-cluster workflow service and
proves properties of them.

- **The frontend admin handler's decision logic** (`adminhandler.dfy`, module
  `AdminHandler`). Both raw-history handlers are modelled:
  - request validation;
  - resolution of a V2 request's event range against the execution's
    version histories, with the request object rewritten in place as the
    handler does;
  - the V2 pagination token;
  - the translation of the exclusive-exclusive API range into the storage
    read;
  - the V1 handler's continuation-token checks and its clamping of the range
    to the mutable state.

  The module also covers the helpers `validateExecution`, `checkPermission`,
  `convertIndexedValueTypeToESDataType` and `errorThrift`, the
  search-attribute whitelist merge, and the read start of domain replication.
- **The N-data-center conflict resolver** (`conflictresolver.dfy`, module
  `NDCConflictResolver`). `prepareMutableState` and `rebuild` are classes over
  the objects they change: the caller's shared VersionHistories, the cached
  and rebuilt mutable states, the execution context and the state rebuilder.
  Each collaborator logs the calls made on it, so "called exactly once, with
  these arguments" is a postcondition.
- **The enum adapters** between the protobuf and thrift forms of the API enums
  (`enums.dfy`, module `Adapter`). They are written on a Go `int32` newtype
  whose `+1`/`-1` wrap around.

Supporting modules:

- `wrappers.dfy`: `Option`, `Result` and `Outcome`.
- `shared.dfy`: the service error kinds, and the event-id sentinels
  `FirstEventID = 1`, `EmptyEventID = -23` and `EmptyVersion = -24`.
- `versionhistory.dfy`: the version histories the handler and the resolver
  read. Their own source file is not part of this model, so they get simple
  definitions:
  - a branch contains an event when the segment written at the event's
    version covers its id;
  - branches are searched in order;
  - the lowest common ancestor is found by walking both branches from their
    ends.

Calls to other services and to storage are parameters: the domain lookup,
`GetMutableState`, the paginated history reads and the state rebuilder's
replay. UUID parsing is the uninterpreted predicate `isUUID`.

## Model

| member | source | states |
|---|---|---|
| AdminHandler.ErrorThrift | service/frontend/adminHandler.go:938-957 | known error kinds pass through unchanged, any other error becomes an internal service error with the same message; the result is never uncategorized; internal errors and uncategorized ones are logged and counted as failures, bad-request and busy errors bump their own counters, not-found errors bump none |
| AdminHandler.ErrorThriftIdempotent | service/frontend/adminHandler.go:938-957 | classifying an already classified error changes nothing |
| AdminHandler.HandlerError | service/frontend/adminHandler.go:929-936 | the error a handler returns is errorThrift's classification: known kinds unchanged, anything else an internal service error with the same message, never uncategorized |
| AdminHandler.ValidateExecution | service/frontend/adminHandler.go:979-990 | passes iff the execution is set, has a workflow id and its run id is empty or a UUID; a missing execution, then an empty workflow id, then a bad run id decide the error |
| AdminHandler.CheckPermission | service/frontend/adminHandler.go:992-1006 | passes iff admin protection is off, or the token is non-empty and equals the configured one; every refusal is the no-permission error |
| AdminHandler.EmptyTokenNeverPermitted | service/frontend/adminHandler.go:996-999 | under protection an empty security token is refused even when the configured token is empty |
| AdminHandler.ConvertIndexedValueTypeToESDataType | service/frontend/adminHandler.go:959-976 | String, Keyword, Int, Double, Bool and Datetime map to text, keyword, long, double, boolean and date; any other value type gives the empty string |
| AdminHandler.ESDataTypeInjective | service/frontend/adminHandler.go:959-976 | no two known value types share an Elasticsearch type |
| AdminHandler.ValidateAddSearchAttributeRequest | service/frontend/adminHandler.go:116-128 | passes iff the request is set, the caller is permitted, attributes are given and advanced visibility is configured; the first failing check (nil request, then permission) decides the error |
| AdminHandler.MergeSearchAttributes | service/frontend/adminHandler.go:130-142 | succeeds iff no requested key is a system key or already whitelisted, and then the whitelist is the old one plus exactly the requested entries; a failure names an offending key with the reserved or already-whitelisted message |
| AdminHandler.DomainReplicationReadStartAsWritten | service/frontend/adminHandler.go:667-675 | as written: any request id but -1 reads from -1; the default id -1 reads from the cluster's ack level when the ack levels can be read and hold the cluster, else from -1 |
| AdminHandler.DomainReplicationReadStartIgnoresRequest | service/frontend/adminHandler.go:667-675 | as written, a request naming its last retrieved message (any id but -1) is read from -1, where the corrected start is that id |
| AdminHandler.DomainReplicationReadStart | service/frontend/adminHandler.go:667-675 | the read starts after the request's last retrieved id; only the default id -1 falls back to the cluster's ack level when it can be read, else -1 |
| AdminHandler.ValidateRawHistoryTarget | service/frontend/adminHandler.go:300-314 | passes iff the workflow id is non-empty, the run id is a non-empty UUID and the page size is positive, with the workflow, run and page-size errors in that order |
| AdminHandler.EmptyRunIDAcceptedOnlyByValidateExecution | service/frontend/adminHandler.go:304-309 | an empty run id passes validateExecution but not the raw-history checks |
| AdminHandler.ValidateHistoryToken | service/frontend/adminHandler.go:325-333 | a V1 continuation token passes iff its run id and first event id match the request and the request's next event id is not below the token's |
| AdminHandler.InitialHistoryToken | service/frontend/adminHandler.go:343-370 | rejects a negative first id or first > next; otherwise fails exactly when the mutable state lookup does, and the token keeps the first id and clamps the next id to the smaller of the request's and the mutable state's, so no event past the mutable state is served |
| AdminHandler.StartHistoryToken | service/frontend/adminHandler.go:319-370 | the read starts from the request's token once it passes the checks, from a fresh token otherwise |
| AdminHandler.FinishRawHistory | service/frontend/adminHandler.go:372-436 | first >= next gives an empty page with no token; otherwise the page is read over [first, next) of the token's branch, a not-found read gives an empty page, other read errors are returned, and a next token exists iff storage gave a non-empty continuation, being the request's token with only that continuation changed |
| AdminHandler.GetWorkflowExecutionRawHistory | service/frontend/adminHandler.go:285-437 | the V1 handler: the domain lookup error first, then the execution checks, then the page read of FinishRawHistory from the token StartHistoryToken gives, or its error |
| AdminHandler.RawHistoryPaginationContinues | service/frontend/adminHandler.go:325-333 | the token a first V1 page hands out is accepted when the same request returns with it, and keeps the same branch and range |
| AdminHandler.ValidateRawHistoryV2Request | service/frontend/adminHandler.go:758-795 | passes iff the execution checks pass, the range is not wholly unset and each id/version pair is wholly set or wholly unset; each failing check gives its own message in source order |
| AdminHandler.CurrentBounds | service/frontend/adminHandler.go:809-820 | succeeds iff the current index is valid and the current branch is non-empty, giving that branch with its first and last items |
| AdminHandler.DefaultRange | service/frontend/adminHandler.go:822-833 | set start and end ids are kept, and once defaulted from a branch whose versions and last id are not the sentinels neither bound is unset any more |
| AdminHandler.DefaultRangeFillsUnsetBounds | service/frontend/adminHandler.go:822-833 | an unset start becomes (FirstEventID-1, first item's version), an unset end becomes (last item's id+1, its version); set bounds are kept |
| AdminHandler.SelectTargetBranch | service/frontend/adminHandler.go:838-854 | the default end keeps the current branch; any other end selects the first branch containing the end item, and fails iff no branch contains it |
| AdminHandler.AdjustStart | service/frontend/adminHandler.go:856-879 | a default start or one on the target branch is kept; otherwise the call succeeds iff some branch contains the start and the LCA search between the target and the first such branch succeeds, and then the start becomes that LCA; the end is never moved |
| AdminHandler.ResolveRange | service/frontend/adminHandler.go:804-882 | a current-branch lookup failure is the result; a negative start after defaulting is rejected with its message; success means the target and the final range are what SelectTargetBranch and AdjustStart give for the defaulted range, and happens whenever both succeed |
| AdminHandler.RangeAfterResolve | service/frontend/adminHandler.go:804-882 | the range a request holds after resolution: untouched when the current branch cannot be read, the resolved range on success, the defaulted range after a later failure; the end is the defaulted end in every case where the branch was read |
| AdminHandler.ResolveRangeDefaultEnd | service/frontend/adminHandler.go:828-842 | an unset end reads the current branch through its last event |
| AdminHandler.ResolveRangeDefaultStart | service/frontend/adminHandler.go:822-827 | an unset start reads from the first event |
| AdminHandler.StartIdEqualToEmptyVersionIsDefaulted | service/frontend/adminHandler.go:822 | a start id of -24 (the empty version) with a set version passes validation and then counts as an unset start, because line 822 compares the id with EmptyVersion |
| AdminHandler.SetRequestDefaultValueAndGetTargetVersionHistory | service/frontend/adminHandler.go:804-882 | rewrites the request's range in place to the resolved range (to the defaulted one after a late failure, untouched after an early one) and returns the target branch or ResolveRange's error |
| AdminHandler.GeneratePaginationToken | service/frontend/adminHandler.go:884-901 | the generated token carries the version histories and no persistence token, and always passes validation for the request it was made from |
| AdminHandler.ValidatePaginationToken | service/frontend/adminHandler.go:903-919 | passes iff domain, workflow id, run id and all four range fields equal the token's |
| AdminHandler.PaginationTokenValidIffGenerated | service/frontend/adminHandler.go:884-919 | a token passes iff it is the token the request would generate, up to its persistence token and version histories |
| AdminHandler.StorageRead | service/frontend/adminHandler.go:506-528 | no read when start+1 == end, otherwise a read of the target branch with the page size and the token's persistence token |
| AdminHandler.StorageReadCoversOpenRange | service/frontend/adminHandler.go:519-528 | the inclusive-exclusive storage read covers exactly the events strictly between the API's start and end |
| AdminHandler.FinishRawHistoryV2 | service/frontend/adminHandler.go:506-568 | adjacent bounds give an empty page with no token; a not-found read gives an empty page, other read errors are returned; the page carries the target branch, the read's blobs, and a next token iff storage gave a continuation, being the request's token with only that continuation changed |
| AdminHandler.HistoriesFor | service/frontend/adminHandler.go:460-497 | a first page resolves against the mutable state's version histories, a later page against those in its token, and a token without them is refused |
| AdminHandler.RawHistoryV2 | service/frontend/adminHandler.go:440-569 | a failing validation is returned (through errorThrift) with the request untouched; after it, a failed domain lookup or a failed history lookup (including a token without histories) is returned with the request untouched, and a failed resolution with the request as RangeAfterResolve leaves it; once the range resolves, the response is FinishRawHistoryV2 over the resolved target branch and range, read with the generated token on a first page and the carried token otherwise, and a token that fails validation is returned as its error; a success implies every check passed |
| AdminHandler.GetWorkflowExecutionRawHistoryV2 | service/frontend/adminHandler.go:440-569 | the handler, rewriting the request in place, returns RawHistoryV2's response and leaves the request with its range |
| AdminHandler.RawHistoryV2PaginationContinues | service/frontend/adminHandler.go:481-503 | the next-page token of a first V2 page is accepted when the same request returns with it: the range and branch resolve the same and the read resumes from the storage continuation, whatever the mutable state now says |
| VersionHistory.GetFirstItem | service/frontend/adminHandler.go:813-816 | fails iff the branch is empty, else gives its first item |
| VersionHistory.GetLastItem | service/frontend/adminHandler.go:817-820 | fails iff the branch is empty, else gives its last item |
| VersionHistory.GetVersionHistory | service/frontend/adminHandler.go:850-853 | fails iff the index is out of range, else gives that branch |
| VersionHistory.GetCurrentVersionHistory | service/frontend/adminHandler.go:809-812 | the branch at the current index, failing iff that index is out of range |
| VersionHistory.FindFirstVersionHistoryIndexByItem | service/frontend/adminHandler.go:845-849 | gives the index of the first branch containing the item, and fails iff no branch contains it |
| VersionHistory.FindLCAItem | service/frontend/adminHandler.go:872-875 | a found ancestor is an item of one of the two branches |
| VersionHistory.ContainsItemBounds | service/frontend/adminHandler.go:863 | on a branch whose event ids grow from the first event, a contained event lies between the first event and the branch's last event |
| VersionHistory.ContainsOwnItems | service/frontend/adminHandler.go:863 | on such a branch every item of the branch is contained in it |
| NDCConflictResolver.RebuildRequestFor | service/history/nDCConflictResolver_test.go:198-205 | the rebuilder call replays the execution onto itself from the target branch's token with next event id one past the branch's last event (the replay covers the whole branch), under the given request id; it exists iff the branch index is valid and the branch non-empty |
| NDCConflictResolver.RebuildCoversTargetBranch | service/history/nDCConflictResolver_test.go:198-205 | on a branch whose event ids grow, every event the branch contains lies before the rebuild's next event id |
| NDCConflictResolver.PrepareDecision | service/history/nDCConflictResolver_test.go:215-231 | the current branch never rebuilds; a rebuild is decided iff the branch is another one and the incoming version exceeds the current branch's last version; a lower version keeps the cached state and an equal one is a bad request |
| NDCConflictResolver.VersionHistoriesRef.SetCurrentVersionHistoryIndex | service/history/nDCConflictResolver_test.go:209-212 | a valid index becomes current, branches unchanged |
| NDCConflictResolver.MutableState.SetVersionHistories | service/history/nDCConflictResolver_test.go:195 | the state holds the given VersionHistories object, and the call is logged |
| NDCConflictResolver.MutableState.SetUpdateCondition | service/history/nDCConflictResolver_test.go:196 | the state holds the given update condition, and the call is logged |
| NDCConflictResolver.MutableState.AddTransferTasks | service/history/nDCConflictResolver_test.go:288-292 | the tasks are appended, and the call is logged |
| NDCConflictResolver.ExecutionContext.Clear | service/history/nDCConflictResolver_test.go:207 | the cached state is dropped, and the call is logged |
| NDCConflictResolver.ExecutionContext.SetHistorySize | service/history/nDCConflictResolver_test.go:208 | the history size is set, and the call is logged |
| NDCConflictResolver.StateRebuilder.Rebuild | service/history/nDCConflictResolver_test.go:198-205 | logs the request and, when the replay succeeds, hands back a fresh state built from it and the replayed size |
| NDCConflictResolver.ConflictResolver.Rebuild | service/history/nDCConflictResolver_test.go:149-213 | one rebuilder call with RebuildRequestFor's arguments; on success a fresh state that shares the caller's VersionHistories, now current at the target index, and carries the old update condition (each set exactly once, no transfer tasks), and a context cleared once and given the replayed size once; any failure leaves the context and the VersionHistories unchanged |
| NDCConflictResolver.ConflictResolver.PrepareMutableState | service/history/nDCConflictResolver_test.go:233-309 | keeps the cached state without touching anything when PrepareDecision says so; otherwise rebuilds exactly once as Rebuild does (the rebuilt state has the replayed execution info, the shared VersionHistories keep their branches and become current at the target), reports isRebuilt, and with visibility-to-Kafka adds exactly one search-attribute upsert task to the rebuilt state |
| NDCConflictResolver.RebuildScenario | service/history/nDCConflictResolver_test.go:149-205 | the test's branches (ending at events 5 and 2) make a rebuild of branch 1 replay token 1 through event 2, i.e. with next event id 3 |
| NDCConflictResolver.NoRebuildScenario | service/history/nDCConflictResolver_test.go:215-231 | an event for the current branch never rebuilds, whatever its version |
| NDCConflictResolver.PrepareRebuildScenario | service/history/nDCConflictResolver_test.go:233-301 | version 13 for the stale branch 1 rebuilds token 1 through event 1, i.e. with next event id 2 |
| NDCConflictResolver.RebuildMethodScenario | service/history/nDCConflictResolver_test.go:149-213 | run against the classes with the test's data: one rebuilder call (token 1, next event id 3), the rebuilt state given the shared VersionHistories and update condition 59 once each, the VersionHistories current at branch 1, the context cleared once and given size 12345 once |
| NDCConflictResolver.NoRebuildMethodScenario | service/history/nDCConflictResolver_test.go:215-231 | run against the classes: the current branch's event gets the cached state back unrebuilt, with no rebuilder call and no context call |
| NDCConflictResolver.PrepareRebuildMethodScenario | service/history/nDCConflictResolver_test.go:233-309 | run against the classes: version 13 for branch 1 rebuilds once (token 1, next event id 2), the rebuilt state gets the shared VersionHistories and update condition 59 once each and, with visibility to Kafka, one upsert task, and the context is cleared once and resized once |
| Adapter.Inc | common/adapter/enums.go:43-48 | Go's int32 `+1`, wrapping from the maximum to the minimum |
| Adapter.Dec | common/adapter/enums.go:33-40 | Go's int32 `-1`, wrapping from the minimum to the maximum |
| Adapter.IncDecInverse | common/adapter/enums.go:33-48 | the two shifts undo each other on every int32 |
| Adapter.ToThriftArchivalStatus | common/adapter/enums.go:33-40 | Default becomes nil and every other status k becomes k-1, so converting back gives the status again |
| Adapter.ToProtoArchivalStatus | common/adapter/enums.go:43-48 | gives Default exactly for nil and for the thrift value -1 |
| Adapter.ArchivalStatusThriftRoundTrip | common/adapter/enums.go:33-48 | thrift to protobuf and back is the identity for every value except -1, in particular for all non-negative ones |
| Adapter.ToThriftWorkflowExecutionCloseStatus | common/adapter/enums.go:71-78 | Running becomes nil and every other status k becomes k-1, so converting back gives the status again |
| Adapter.ToProtoWorkflowExecutionCloseStatus | common/adapter/enums.go:50-55 | gives Running exactly for nil and for the thrift value -1 |
| Adapter.WorkflowExecutionCloseStatusThriftRoundTrip | common/adapter/enums.go:50-78 | thrift to protobuf and back is the identity except for -1 |
| Adapter.ToThriftContinueAsNewInitiator | common/adapter/enums.go:85-92 | NotSet becomes nil and every other value k becomes k-1, so converting back gives the value again |
| Adapter.ToProtoContinueAsNewInitiator | common/adapter/enums.go:94-99 | gives NotSet exactly for nil and for the thrift value -1 |
| Adapter.ContinueAsNewInitiatorThriftRoundTrip | common/adapter/enums.go:85-99 | thrift to protobuf and back is the identity except for -1 |
| Adapter.ToThriftQueryRejectCondition | common/adapter/enums.go:120-127 | None becomes nil and every other value v becomes the w with w+1 = v |
| Adapter.QueryRejectConditionInjective | common/adapter/enums.go:120-127 | distinct conditions never share a thrift value |
| Adapter.ToThriftEncodingType | common/adapter/enums.go:139-152 | defined for everything but Proto (which panics); never nil; JSON maps to JSON and everything else to ThriftRW |
| Adapter.ToProtoEncodingType | common/adapter/enums.go:154-162 | JSON maps to JSON and everything else to ThriftRW |
| Adapter.EncodingTypeRoundTrip | common/adapter/enums.go:139-162 | ThriftRW and JSON survive protobuf to thrift to protobuf; any unknown protobuf value comes back as ThriftRW |
| Adapter.EncodingTypeThriftRoundTrip | common/adapter/enums.go:139-162 | the two thrift encodings survive thrift to protobuf to thrift |
| Adapter.ToThriftPassThrough | common/adapter/enums.go:57-69 | the same-ordinal casts (also lines 80-83, 101-118, 129-137 and 164-200) keep the value and never give nil |

## Left out

- VersionHistory.FindLCAItem: states only that the ancestor is an item of one of the two branches, not that it is the latest common one. Its file is not part of this model, so the definition is a plain walk from the ends.
- The version-history operations other than the LCA search, such as ContainsItem, have simple definitions only. No branch-wellformedness invariant is kept; ContainsItemBounds and RebuildCoversTargetBranch take growing event ids as a premise. Adding a branch to a VersionHistories is not used by the modelled code.
- NDCConflictResolver.ConflictResolver.Rebuild: the consistency check after the replay is not modelled. The tests read the rebuilt state's version histories once and use data that always agree with the target branch.
- NDCConflictResolver.PrepareDecision: the resolver's implementation file is not part of this model, and the tests pin only the same-branch case and the higher-version case. The lower-version and equal-version branches are this model's assumption: their results (keep the cached state; a bad request) and the bad request's message are invented. The fresh request id a rebuild gets (`uuid.New`) is the parameter `newRequestID`.
- NDCConflictResolver.ConflictResolver.Rebuild: the behaviour is taken from the tests alone. Line 212 expects the caller's VersionHistories to end up current at the target branch, and the model does that.
- NDCConflictResolver.RebuildRequestFor: the next event id is one past the target branch's last event, matching the tests (lines 202 and 298). In both tests the target branch is a prefix of the current one at the same version, so one past the common ancestor of the two branches is the same number (3 and 2). The tests therefore do not tell these two readings apart; the model takes the last event.
- The state rebuilder's replay is the opaque function `replay`, which gives a state and a size. Storage reads, event application and size accounting are not modelled.
- The error values errRequestNotSet, errNoPermission, errExecutionNotSet, errWorkflowIDNotSet and errInvalidRunID are defined in a file that is not part of this model. They are distinct bad-request errors here, and their message texts are illustrative.
- AdminHandler.HandlerError: the gRPC status errors that `adh.error` passes straight through (lines 929-936) are not a kind of ServiceError. The protobuf conversion of the error is not modelled either.
- AdminHandler.MergeSearchAttributes: the dynamic-config read of the whitelist and its write-back are left out, and so are the Elasticsearch mapping updates (lines 144-168). So the model does not show that an unknown value type is rejected only after the whitelist has been written.
- Token (de)serialization, history-batch serialization and blob conversion are treated as never failing. The raw-history tokens are datatypes, not bytes.
- Metrics and logging are modelled only in errorThrift, as the counter it bumps and whether it logs. The request counters and latency timers of the metrics scope, the shard id of the read, panic capture and request profiling are left out.
- The other handlers (DescribeWorkflowExecution, RemoveTask, CloseShard, DescribeHistoryHost, DescribeCluster, GetReplicationMessages, GetDLQReplicationMessages, ReapplyEvents) are proxies to other services. The domain-replication queue read itself and the ack-level update after it (lines 677-690) are left out too.
- common/adapter/history_service.go is field-by-field message copying and is not part of this model.
- Integer widths: event ids and versions are unbounded integers, so int64 overflow of `lastItem.eventID + 1` is not modelled. The enum adapters do model int32 wrap-around.
- Concurrency and per-execution locking happen in callers and are not modelled.

## Findings

| source | as written | input that shows it | evidently intended | confidence | as-written member | corrected member |
|---|---|---|---|---|---|---|
| service/frontend/adminHandler.go:667-675 | the read start is the default -1 unless the request asks for the default, when it becomes the cluster's ack level; a request's own last retrieved id is never used | LastRetrievedMessageId = 5: the queue is read from -1, so every message is sent again | read after the request's last retrieved id, falling back to the ack level only for -1 | medium, not executed | AdminHandler.DomainReplicationReadStartIgnoresRequest | AdminHandler.DomainReplicationReadStart |
