/** Version histories: the branches of one workflow execution.

    A branch is a branch token (naming the chain of event blobs in storage)
    and a sequence of items (eventID, version): item i says that the events
    after item i-1 up to and including eventID were written at that version.
    The operations below are what the frontend and the conflict resolver call;
    they are given simple definitions and only the properties that the
    callers' control flow depends on are stated. */
module VersionHistory {
  import opened Wrappers
  import opened Shared
  import Common

  datatype VersionHistoryItem = VersionHistoryItem(eventID: int, version: int)

  datatype VersionHistory = VersionHistory(branchToken: seq<bv8>, items: seq<VersionHistoryItem>)

  datatype VersionHistories = VersionHistories(histories: seq<VersionHistory>, currentIndex: int)

  function GetFirstItem(h: VersionHistory): (r: Result<VersionHistoryItem, ServiceError>)
    ensures r.Success? <==> |h.items| > 0
    ensures r.Success? ==> r.value == h.items[0]
  {
    if |h.items| == 0 then Failure(BadRequestError("version history is empty."))
    else Success(h.items[0])
  }

  function GetLastItem(h: VersionHistory): (r: Result<VersionHistoryItem, ServiceError>)
    ensures r.Success? <==> |h.items| > 0
    ensures r.Success? ==> r.value == h.items[|h.items| - 1]
  {
    if |h.items| == 0 then Failure(BadRequestError("version history is empty."))
    else Success(h.items[|h.items| - 1])
  }

  function GetVersionHistory(hs: VersionHistories, index: int): (r: Result<VersionHistory, ServiceError>)
    ensures r.Success? <==> 0 <= index < |hs.histories|
    ensures r.Success? ==> r.value == hs.histories[index]
  {
    if 0 <= index < |hs.histories| then Success(hs.histories[index])
    else Failure(BadRequestError("getting branch index out of range."))
  }

  function GetCurrentVersionHistory(hs: VersionHistories): (r: Result<VersionHistory, ServiceError>)
    ensures r.Success? <==> 0 <= hs.currentIndex < |hs.histories|
    ensures r.Success? ==> r.value == hs.histories[hs.currentIndex]
  {
    GetVersionHistory(hs, hs.currentIndex)
  }

  /** The event id just before the segment of item i. */
  function SegmentStart(items: seq<VersionHistoryItem>, i: int): int
    requires 0 <= i < |items|
  {
    if i == 0 then Common.FirstEventID - 1 else items[i - 1].eventID
  }

  /** A branch contains an event when the segment written at the event's
      version covers the event's id. */
  predicate ContainsItem(h: VersionHistory, item: VersionHistoryItem)
  {
    exists i | 0 <= i < |h.items| ::
      h.items[i].version == item.version && SegmentStart(h.items, i) < item.eventID <= h.items[i].eventID
  }

  predicate IncreasingEventIDs(items: seq<VersionHistoryItem>)
  {
    forall i, j | 0 <= i < j < |items| :: items[i].eventID < items[j].eventID
  }

  /** On a branch whose event ids grow from the first event on, a contained
      event lies between the first event and the branch's last one. */
  lemma {:induction false} ContainsItemBounds(h: VersionHistory, item: VersionHistoryItem)
    requires |h.items| > 0 && IncreasingEventIDs(h.items) && h.items[0].eventID >= Common.FirstEventID
    requires ContainsItem(h, item)
    ensures Common.FirstEventID <= item.eventID <= h.items[|h.items| - 1].eventID
  {
    var i :| 0 <= i < |h.items| && h.items[i].version == item.version
             && SegmentStart(h.items, i) < item.eventID <= h.items[i].eventID;
    if i > 0 {
      assert h.items[0].eventID <= h.items[i - 1].eventID;
    }
    if i < |h.items| - 1 {
      assert h.items[i].eventID < h.items[|h.items| - 1].eventID;
    }
  }

  /** On such a branch every item of the branch is contained in it. */
  lemma {:induction false} ContainsOwnItems(h: VersionHistory, k: int)
    requires IncreasingEventIDs(h.items) && 0 <= k < |h.items| && h.items[0].eventID >= Common.FirstEventID
    ensures ContainsItem(h, h.items[k])
  {
    if k > 0 {
      assert h.items[k - 1].eventID < h.items[k].eventID;
    }
    assert SegmentStart(h.items, k) < h.items[k].eventID;
  }

  /** The index of the first branch, from `from` on, that contains `item`. */
  function FindFrom(histories: seq<VersionHistory>, item: VersionHistoryItem, from: nat): (r: Option<nat>)
    requires from <= |histories|
    ensures r.Some? ==> from <= r.value < |histories| && ContainsItem(histories[r.value], item)
    ensures r.Some? ==> forall j | from <= j < r.value :: !ContainsItem(histories[j], item)
    ensures r.None? ==> forall j | from <= j < |histories| :: !ContainsItem(histories[j], item)
    decreases |histories| - from
  {
    if from == |histories| then None
    else if ContainsItem(histories[from], item) then Some(from)
    else FindFrom(histories, item, from + 1)
  }

  /** Branches are scanned in order; the first one containing the item wins. */
  function FindFirstVersionHistoryIndexByItem(hs: VersionHistories, item: VersionHistoryItem): (r: Result<nat, ServiceError>)
    ensures r.Success? ==> r.value < |hs.histories| && ContainsItem(hs.histories[r.value], item)
    ensures r.Success? ==> forall j | 0 <= j < r.value :: !ContainsItem(hs.histories[j], item)
    ensures r.Failure? <==> forall j | 0 <= j < |hs.histories| :: !ContainsItem(hs.histories[j], item)
  {
    match FindFrom(hs.histories, item, 0)
    case Some(i) => Success(i)
    case None => Failure(BadRequestError("version histories does not contains given item."))
  }

  /** Walks both item sequences from their ends (positions i and j count the
      items still unexamined) to the latest version both branches share. */
  function LCAFrom(local: seq<VersionHistoryItem>, remote: seq<VersionHistoryItem>, i: nat, j: nat): (r: Result<VersionHistoryItem, ServiceError>)
    requires i <= |local| && j <= |remote|
    ensures r.Success? ==> exists a, b | 0 <= a < i && 0 <= b < j ::
      local[a].version == remote[b].version == r.value.version && (r.value == local[a] || r.value == remote[b])
    decreases i + j
  {
    if i == 0 || j == 0 then Failure(BadRequestError("version history is malformed. No joint point found."))
    else if local[i - 1].version == remote[j - 1].version then
      Success(if local[i - 1].eventID > remote[j - 1].eventID then remote[j - 1] else local[i - 1])
    else if local[i - 1].version > remote[j - 1].version then LCAFrom(local, remote, i - 1, j)
    else LCAFrom(local, remote, i, j - 1)
  }

  /** The lowest common ancestor item of two branches. */
  function FindLCAItem(local: VersionHistory, remote: VersionHistory): (r: Result<VersionHistoryItem, ServiceError>)
    ensures r.Success? ==> r.value in local.items || r.value in remote.items
  {
    LCAFrom(local.items, remote.items, |local.items|, |remote.items|)
  }
}
