/** The methods of a streaming session on its fields, each shown to do what the session machine says. */
module WsSessionClass {
  import opened StreamFrames
  import opened WsSession

  class StreamSession {
    var queue: seq<Item>
    var cancelEvent: bool
    var registryCancelled: bool
    var cancelledByClient: bool
    var cancelNotified: bool
    var sawStreamError: bool
    var sawStreamTerminal: bool
    var streamErrorCounted: bool
    var requestsOk: nat
    var requestsError: nat
    ghost var sent: seq<Chunk>
    ghost var noticeAt: nat

    ghost function Fields(): Session
      reads this
    {
      Session(queue, cancelEvent, registryCancelled, cancelledByClient, cancelNotified, sawStreamError,
              sawStreamTerminal, streamErrorCounted, requestsOk, requestsError, sent, noticeAt)
    }

    constructor ()
      ensures Fields() == FRESH
    {
      queue, sent, noticeAt := [], [], 0;
      cancelEvent, registryCancelled, cancelledByClient, cancelNotified := false, false, false, false;
      sawStreamError, sawStreamTerminal, streamErrorCounted := false, false, false;
      requestsOk, requestsError := 0, 0;
    }

    method RecordStreamError()
      modifies this
      ensures Fields() == RecordError(old(Fields()))
    {
      sawStreamError := true;
      sawStreamTerminal := true;
      if !streamErrorCounted {
        requestsError := requestsError + 1;
        streamErrorCounted := true;
      }
    }

    method ObserveStreamFrame(chunk: Chunk)
      modifies this
      ensures Fields() == Observe(old(Fields()), chunk)
    {
      if chunk.Frame? {
        if chunk.kind == Done {
          sawStreamTerminal := true;
        } else if chunk.kind == Cancelled {
          sawStreamTerminal := true;
        } else if chunk.kind in {Error, SegmentError} {
          RecordStreamError();
        }
      }
    }

    /** `reachable` says whether sending to the client succeeds. False if the frame could not be sent as bytes, or
        the client is gone; `raised` tells the two apart. */
    method SendStreamFrame(chunk: Chunk, binary: bool, reachable: bool) returns (ok: bool, raised: bool)
      modifies this
      ensures raised == !reachable && ok == (reachable && !BadAudio(binary, chunk))
      ensures var s := if BadAudio(binary, chunk) then RecordError(old(Fields())) else old(Fields());
              Fields() == if ok then s.(sent := s.sent + [chunk]) else s
    {
      if binary && chunk.Frame? && chunk.kind == Audio {
        if !chunk.decodable {
          RecordStreamError();
          return false, !reachable;
        }
      }
      if !reachable { return false, true; }
      sent := sent + [chunk];
      return true, false;
    }

    /** One chunk in the send loop, as it goes when no other task runs in between. */
    method HandleChunk(chunk: Chunk, binary: bool, reachable: bool) returns (stop: bool)
      modifies this
      ensures Fields() == HandOver(Admit(old(Fields()), binary, chunk), binary, chunk, reachable)
      ensures stop == EndsLoop(binary, chunk, reachable)
    {
      ObserveStreamFrame(chunk);
      var ok, raised := SendStreamFrame(chunk, binary, reachable);
      if raised {
        registryCancelled := true;
        cancelEvent := true;
        cancelledByClient := true;
        return true;
      }
      if !ok { return true; }
      return chunk.Frame? && chunk.kind == Cancelled;
    }

    method HandleMarker()
      modifies this
      ensures Fields() == AtMarker(old(Fields()))
    {
      if !sawStreamTerminal && !cancelEvent && !registryCancelled {
        RecordStreamError();
      }
    }

    method DrainQueue()
      modifies this`queue
      ensures queue == []
    {
      while queue != []
        decreases |queue|
      {
        queue := queue[1..];
      }
    }

    method NotifyClient()
      modifies this
      ensures Fields() == NotifyCancelled(old(Fields()))
    {
      if cancelNotified { return; }
      cancelNotified := true;
      noticeAt := |sent|;
      DrainQueue();
      queue := queue + [Delivery(CANCELLED_FRAME)];
      queue := queue + [DoneMarker];
    }

    method ClientCancelled()
      modifies this
      ensures Fields() == MarkClientCancelled(old(Fields()))
    {
      if sawStreamTerminal { return; }
      registryCancelled := true;
      cancelEvent := true;
      cancelledByClient := true;
      NotifyClient();
    }

    method CancelBackgroundTasks()
      modifies this
      ensures Fields() == StopTasks(old(Fields()))
    {
      var normalTerminal := sawStreamTerminal && !cancelledByClient && !registryCancelled;
      if !normalTerminal { cancelEvent := true; }
    }

    method FinishSession()
      modifies this
      ensures Fields() == Finish(old(Fields()))
    {
      if cancelledByClient || registryCancelled {
      } else if sawStreamError {
        if !streamErrorCounted { requestsError := requestsError + 1; }
      } else {
        requestsOk := requestsOk + 1;
      }
      registryCancelled := false;
    }
  }
}
