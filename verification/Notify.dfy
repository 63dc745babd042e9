/**
 The notification tokens the consumer's threads exchange over eventfds, and the
 table that pairs every event TLV with its READY and SENT token.
 */
module Notify {
  import opened Wrappers

  /** The six event TLVs the consumer can emit. */
  datatype Tag =
    | RadioUpdate
    | StationUpdate
    | DataBatch
    | CsiAndCfo
    | TemperatureData
    | L1CollectionDone

  const NOTIFY_NONE: nat := 0
  const NOTIFY_RADIO_DATA_READY: nat := 2
  const NOTIFY_RADIO_DATA_SENT: nat := 3
  const NOTIFY_STATION_DATA_READY: nat := 4
  const NOTIFY_STATION_DATA_SENT: nat := 5
  const NOTIFY_BATCH_DATA_READY: nat := 6
  const NOTIFY_BATCH_DATA_SENT: nat := 7
  const NOTIFY_CSI_CFO_READY: nat := 8
  const NOTIFY_CSI_CFO_SENT: nat := 9
  const NOTIFY_TEMPERATURE_READY: nat := 10
  const NOTIFY_TEMPERATURE_SENT: nat := 11
  const NOTIFY_L1_COLLECTION_DONE_READY: nat := 12
  const NOTIFY_L1_COLLECTION_DONE_SENT: nat := 13
  const NOTIFY_SOCKET_THREAD_STOP: nat := 14
  const NOTIFY_SOCKET_THREAD_RETURN: nat := 15
  const NOTIFY_L1_THREAD_STOP: nat := 16
  const NOTIFY_L1_THREAD_RETURN: nat := 17
  const NOTIFY_FIFO_THREAD_STOP: nat := 18
  const NOTIFY_FIFO_THREAD_RETURN: nat := 19

  datatype LutEntry = LutEntry(tag: Tag, ready: nat, sent: nat)

  const TLV_NOTIFY_LUT: seq<LutEntry> := [
    LutEntry(RadioUpdate, NOTIFY_RADIO_DATA_READY, NOTIFY_RADIO_DATA_SENT),
    LutEntry(StationUpdate, NOTIFY_STATION_DATA_READY, NOTIFY_STATION_DATA_SENT),
    LutEntry(DataBatch, NOTIFY_BATCH_DATA_READY, NOTIFY_BATCH_DATA_SENT),
    LutEntry(CsiAndCfo, NOTIFY_CSI_CFO_READY, NOTIFY_CSI_CFO_SENT),
    LutEntry(TemperatureData, NOTIFY_TEMPERATURE_READY, NOTIFY_TEMPERATURE_SENT),
    LutEntry(L1CollectionDone, NOTIFY_L1_COLLECTION_DONE_READY, NOTIFY_L1_COLLECTION_DONE_SENT)
  ]

  function ReadyToken(tag: Tag): nat {
    match tag
    case RadioUpdate => NOTIFY_RADIO_DATA_READY
    case StationUpdate => NOTIFY_STATION_DATA_READY
    case DataBatch => NOTIFY_BATCH_DATA_READY
    case CsiAndCfo => NOTIFY_CSI_CFO_READY
    case TemperatureData => NOTIFY_TEMPERATURE_READY
    case L1CollectionDone => NOTIFY_L1_COLLECTION_DONE_READY
  }

  function SentToken(tag: Tag): nat { ReadyToken(tag) + 1 }

  /** What the comms thread answers a READY token with, if it knows the token. */
  function AnswerTo(u: nat): Option<nat> {
    if 2 <= u <= 12 && u % 2 == 0 then Some(u + 1) else None
  }

  /** The emitting side's table walk: stops at the first entry for the tag. */
  method LookupByTag(tag: Tag) returns (ready: nat, sent: nat)
    ensures ready == ReadyToken(tag) && sent == SentToken(tag)
    ensures sent == ready + 1
    ensures ready == match tag
                     case RadioUpdate => 2
                     case StationUpdate => 4
                     case DataBatch => 6
                     case CsiAndCfo => 8
                     case TemperatureData => 10
                     case L1CollectionDone => 12
  {
    ready, sent := NOTIFY_NONE, NOTIFY_NONE;
    var i := 0;
    while i < |TLV_NOTIFY_LUT|
      invariant 0 <= i <= ReadyToken(tag) / 2 - 1
    {
      if tag == TLV_NOTIFY_LUT[i].tag {
        return TLV_NOTIFY_LUT[i].ready, TLV_NOTIFY_LUT[i].sent;
      }
      i := i + 1;
    }
  }

  /** The comms thread's table walk over READY tokens. */
  method LookupByReady(u: nat) returns (notify: nat)
    ensures notify == (match AnswerTo(u) case Some(sent) => sent case None => NOTIFY_NONE)
    ensures notify == if u in {2, 4, 6, 8, 10, 12} then u + 1 else 0
  {
    notify := NOTIFY_NONE;
    var j := 0;
    while j < |TLV_NOTIFY_LUT|
      invariant 0 <= j <= |TLV_NOTIFY_LUT|
      invariant AnswerTo(u).Some? ==> j <= u / 2 - 1
    {
      if u == TLV_NOTIFY_LUT[j].ready {
        return TLV_NOTIFY_LUT[j].sent;
      }
      j := j + 1;
    }
  }
}
