/**
 A Stream (stream.go): its two half-close flags, the counter of closed halves
 and its queue chData, with the atomic operations on them.
 */
module StreamModel {
  import opened Prelude

  datatype StreamMsg = StreamMsg(data: Bytes, eof: bool)

  datatype Stream = Stream(
    queue: seq<StreamMsg>,
    stateRecv: bool,
    stateSend: bool,
    closeCnt: nat,
    dataCloses: nat)           // close calls on chData; a second one panics
  {
    function Push(m: StreamMsg): (r: Stream) { this.(queue := queue + [m]) }

    function Pop(): (r: Stream)
      requires |queue| > 0
    {
      this.(queue := queue[1..])
    }

    function ClaimRecv(): (r: Stream) { this.(stateRecv := true) }

    function ClaimSend(): (r: Stream) { this.(stateSend := true) }

    function CloseData(): (r: Stream) { this.(dataCloses := dataCloses + 1) }

    function Count(): (r: Stream) { this.(closeCnt := closeCnt + 1) }

    /** CloseRecv run without interference. */
    function CloseRecv(): (r: Stream) { if stateRecv then this else ClaimRecv().CloseData().Count() }
  }

  const NewStream := Stream([], false, false, 0, 0)
}
