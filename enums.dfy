/** Conversions between the protobuf enums of the public API and the thrift
    enums used inside the service.

    Both families are Go `int32` types. Enums whose protobuf form has an
    extra "unset" member at ordinal 0 are shifted by one, the unset member
    becoming a nil thrift pointer (None); the others are cast ordinal for
    ordinal. Go's int32 arithmetic wraps around, and so does the model. */
module Adapter {
  import opened Wrappers

  newtype int32 = x: int | -0x8000_0000 <= x < 0x8000_0000

  const MinInt32: int32 := -0x8000_0000
  const MaxInt32: int32 := 0x7FFF_FFFF

  /** Go's `x + 1` on int32. */
  function Inc(x: int32): (r: int32)
    ensures x != MaxInt32 ==> r as int == x as int + 1
    ensures x == MaxInt32 ==> r == MinInt32
  {
    if x == MaxInt32 then MinInt32 else x + 1
  }

  /** Go's `x - 1` on int32. */
  function Dec(x: int32): (r: int32)
    ensures x != MinInt32 ==> r as int == x as int - 1
    ensures x == MinInt32 ==> r == MaxInt32
  {
    if x == MinInt32 then MaxInt32 else x - 1
  }

  lemma IncDecInverse(x: int32)
    ensures Inc(Dec(x)) == x && Dec(Inc(x)) == x
  {
  }

  // The "unset" members of the shifted protobuf enums.
  const ArchivalStatusDefault: int32 := 0
  const WorkflowExecutionCloseStatusRunning: int32 := 0
  const ContinueAsNewInitiatorNotSet: int32 := 0
  const QueryRejectConditionNone: int32 := 0

  // Encoding types, protobuf ordinals and thrift ordinals.
  const ProtoEncodingTypeThriftRW: int32 := 0
  const ProtoEncodingTypeJSON: int32 := 1
  const ProtoEncodingTypeProto: int32 := 2
  const ThriftEncodingTypeThriftRW: int32 := 0
  const ThriftEncodingTypeJSON: int32 := 1

  // ---------------------------------------------------------------- ArchivalStatus

  function ToThriftArchivalStatus(x: int32): (r: Option<int32>)
    ensures r.None? <==> x == ArchivalStatusDefault
    ensures ToProtoArchivalStatus(r) == x
  {
    if x == ArchivalStatusDefault then None else Some(Dec(x))
  }

  function ToProtoArchivalStatus(x: Option<int32>): (r: int32)
    ensures r == ArchivalStatusDefault <==> x == None || x == Some(-1)
  {
    if x.None? then ArchivalStatusDefault else Inc(x.value)
  }

  /** The thrift-side round trip holds for every value except -1, which the
      shift sends onto the unset member. */
  lemma ArchivalStatusThriftRoundTrip(t: Option<int32>)
    ensures ToThriftArchivalStatus(ToProtoArchivalStatus(t)) == t <==> t != Some(-1)
  {
    if t.Some? { IncDecInverse(t.value); }
  }

  // ---------------------------------------------------- WorkflowExecutionCloseStatus

  function ToProtoWorkflowExecutionCloseStatus(x: Option<int32>): (r: int32)
    ensures r == WorkflowExecutionCloseStatusRunning <==> x == None || x == Some(-1)
  {
    if x.None? then WorkflowExecutionCloseStatusRunning else Inc(x.value)
  }

  function ToThriftWorkflowExecutionCloseStatus(x: int32): (r: Option<int32>)
    ensures r.None? <==> x == WorkflowExecutionCloseStatusRunning
    ensures ToProtoWorkflowExecutionCloseStatus(r) == x
  {
    if x == WorkflowExecutionCloseStatusRunning then None else Some(Dec(x))
  }

  lemma WorkflowExecutionCloseStatusThriftRoundTrip(t: Option<int32>)
    ensures ToThriftWorkflowExecutionCloseStatus(ToProtoWorkflowExecutionCloseStatus(t)) == t <==> t != Some(-1)
  {
    if t.Some? { IncDecInverse(t.value); }
  }

  // ---------------------------------------------------------- ContinueAsNewInitiator

  function ToThriftContinueAsNewInitiator(x: int32): (r: Option<int32>)
    ensures r.None? <==> x == ContinueAsNewInitiatorNotSet
    ensures ToProtoContinueAsNewInitiator(r) == x
  {
    if x == ContinueAsNewInitiatorNotSet then None else Some(Dec(x))
  }

  function ToProtoContinueAsNewInitiator(x: Option<int32>): (r: int32)
    ensures r == ContinueAsNewInitiatorNotSet <==> x == None || x == Some(-1)
  {
    if x.None? then ContinueAsNewInitiatorNotSet else Inc(x.value)
  }

  lemma ContinueAsNewInitiatorThriftRoundTrip(t: Option<int32>)
    ensures ToThriftContinueAsNewInitiator(ToProtoContinueAsNewInitiator(t)) == t <==> t != Some(-1)
  {
    if t.Some? { IncDecInverse(t.value); }
  }

  // ------------------------------------------------------------ QueryRejectCondition

  function ToThriftQueryRejectCondition(x: int32): (r: Option<int32>)
    ensures r.None? <==> x == QueryRejectConditionNone
    ensures r.Some? ==> Inc(r.value) == x
  {
    if x == QueryRejectConditionNone then None else Some(Dec(x))
  }

  /** Distinct protobuf conditions never share a thrift value. */
  lemma QueryRejectConditionInjective(a: int32, b: int32)
    requires ToThriftQueryRejectCondition(a) == ToThriftQueryRejectCondition(b)
    ensures a == b
  {
    var ra := ToThriftQueryRejectCondition(a);
    if ra.Some? {
      assert Inc(ra.value) == a && Inc(ra.value) == b;
    }
  }

  // -------------------------------------------------------------------- EncodingType

  /** Protobuf encoding to thrift encoding; the protobuf encoding itself has
      no thrift counterpart and the source panics on it. */
  function ToThriftEncodingType(x: int32): (r: Option<int32>)
    requires x != ProtoEncodingTypeProto
    ensures r.Some?
    ensures r.value == ThriftEncodingTypeJSON <==> x == ProtoEncodingTypeJSON
    ensures r.value == ThriftEncodingTypeJSON || r.value == ThriftEncodingTypeThriftRW
  {
    if x == ProtoEncodingTypeThriftRW then Some(ThriftEncodingTypeThriftRW)
    else if x == ProtoEncodingTypeJSON then Some(ThriftEncodingTypeJSON)
    else Some(ThriftEncodingTypeThriftRW)
  }

  function ToProtoEncodingType(x: int32): (r: int32)
    ensures r == ProtoEncodingTypeJSON <==> x == ThriftEncodingTypeJSON
    ensures r == ProtoEncodingTypeJSON || r == ProtoEncodingTypeThriftRW
  {
    if x == ThriftEncodingTypeThriftRW then ProtoEncodingTypeThriftRW
    else if x == ThriftEncodingTypeJSON then ProtoEncodingTypeJSON
    else ProtoEncodingTypeThriftRW
  }

  /** The two supported encodings survive protobuf -> thrift -> protobuf, and
      every unknown protobuf value lands on ThriftRW. */
  lemma EncodingTypeRoundTrip(e: int32)
    requires e != ProtoEncodingTypeProto
    ensures e == ProtoEncodingTypeThriftRW || e == ProtoEncodingTypeJSON ==>
      ToProtoEncodingType(ToThriftEncodingType(e).value) == e
    ensures e != ProtoEncodingTypeThriftRW && e != ProtoEncodingTypeJSON ==>
      ToProtoEncodingType(ToThriftEncodingType(e).value) == ProtoEncodingTypeThriftRW
  {
  }

  /** The two thrift encodings survive thrift -> protobuf -> thrift. */
  lemma EncodingTypeThriftRoundTrip(t: int32)
    requires t == ThriftEncodingTypeThriftRW || t == ThriftEncodingTypeJSON
    ensures ToProtoEncodingType(t) != ProtoEncodingTypeProto
    ensures ToThriftEncodingType(ToProtoEncodingType(t)) == Some(t)
  {
  }

  // ------------------------------------------------------------ pass-through casts

  /** The cast shared by every enum whose two forms have the same ordinals:
      TaskListKind, WorkflowIdReusePolicy, HistoryEventFilterType,
      DecisionType, ParentClosePolicy, QueryResultType,
      DecisionTaskFailedCause, QueryTaskCompletedType, QueryConsistencyLevel,
      TaskListType, EventType, TimeoutType, the three external/child
      workflow failure causes, DomainOperation, DomainStatus and
      ReplicationTaskType. The result is never nil. */
  function ToThriftPassThrough(x: int32): (r: Option<int32>)
    ensures r.Some? && r.value == x
  {
    Some(x)
  }
}
