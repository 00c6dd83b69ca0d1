/**
 Streams as objects, with the Client's two stream maps (stream.go; client.go;
 the CmdStream case of OnMessage in handler.go). Each method runs alone here;
 StreamClosing and StreamDelivery treat the interleavings.
 */
module StreamObjects {
  import opened Prelude
  import M = StreamModel

  class StreamObj {
    const id: nat
    const local: bool
    const cap: nat                   // capacity of chData
    var chData: seq<M.StreamMsg>
    var dataCloses: nat
    var stateRecv: bool
    var stateSend: bool
    var stateCloseCnt: nat

    constructor (id: nat, local: bool, cap: nat)
      ensures this.id == id && this.local == local && this.cap == cap && View() == M.NewStream
    {
      this.id, this.local, this.cap := id, local, cap;
      chData, dataCloses, stateRecv, stateSend, stateCloseCnt := [], 0, false, false, 0;
    }

    function View(): (v: M.Stream)
      reads this
    {
      M.Stream(chData, stateRecv, stateSend, stateCloseCnt, dataCloses)
    }

    /** onMessage; it would wait when chData is full, which is reported by waits. */
    method OnMessage(m: M.StreamMsg) returns (released: bool, waits: bool)
      modifies this`chData
      ensures released == (m.data != [] && stateRecv)
      ensures waits == (m.data != [] && !stateRecv && |old(chData)| >= cap)
      ensures View() == if m.data == [] || released || waits then old(View()) else old(View()).Push(m)
    {
      released, waits := false, false;
      if m.data == [] {
        return;
      }
      if stateRecv {
        released := true;
        return;
      }
      if |chData| >= cap {
        waits := true;
        return;
      }
      chData := chData + [m];
    }

    /** Recv on an unbroken Client: a message, io.EOF, or a wait. */
    method Recv() returns (r: Option<M.StreamMsg>, eof: bool)
      modifies this`chData
      ensures r.Some? <==> |old(chData)| > 0
      ensures r.Some? ==> old(chData) == [r.value] + chData
      ensures eof == (old(chData) == [] && (stateRecv || dataCloses > 0))
      ensures r.None? ==> chData == old(chData)
    {
      r, eof := None, false;
      if stateRecv && |chData| == 0 {
        eof := true;
        return;
      }
      if |chData| > 0 {
        r, chData := Some(chData[0]), chData[1..];
      } else if dataCloses > 0 {
        eof := true;
      }
    }
  }

  /** The stream maps of a Client, keyed by id; running is its running flag. */
  class Client {
    var running: bool
    var seqNo: nat
    var streamQueueSize: nat
    var streamLocalMap: map<nat, StreamObj>
    var streamRemoteMap: map<nat, StreamObj>

    ghost predicate Keyed(m: map<nat, StreamObj>, local: bool) {
      forall i {:trigger m[i]} :: i in m ==> m[i].id == i && m[i].local == local
    }

    ghost predicate Valid()
      reads this
    {
      Keyed(streamLocalMap, true) && Keyed(streamRemoteMap, false)
    }

    function Streams(local: bool): (m: map<nat, StreamObj>)
      reads this
    {
      if local then streamLocalMap else streamRemoteMap
    }

    /** newStream: id 0 asks for a fresh id. */
    method NewStream(wanted: nat, local: bool) returns (s: StreamObj)
      requires Valid()
      modifies this
      ensures Valid() && fresh(s) && s.View() == M.NewStream && s.local == local
      ensures s.id == (if wanted == 0 then old(seqNo) + 1 else wanted)
      ensures seqNo == (if wanted == 0 then s.id else old(seqNo))
      ensures Streams(local) == old(Streams(local))[s.id := s] && Streams(!local) == old(Streams(!local))
      ensures running == old(running) && streamQueueSize == old(streamQueueSize) && s.cap == streamQueueSize
    {
      var id := wanted;
      if id == 0 {
        seqNo := seqNo + 1;
        id := seqNo;
      }
      s := new StreamObj(id, local, streamQueueSize);
      if local {
        streamLocalMap := streamLocalMap[id := s];
      } else {
        streamRemoteMap := streamRemoteMap[id := s];
      }
    }

    method DeleteStream(id: nat, local: bool)
      requires Valid()
      modifies this`streamLocalMap, this`streamRemoteMap
      ensures Valid() && Streams(!local) == old(Streams(!local))
      ensures Streams(local) == if running then old(Streams(local)) - {id} else old(Streams(local))
    {
      if running {
        if local {
          streamLocalMap := streamLocalMap - {id};
        } else {
          streamRemoteMap := streamRemoteMap - {id};
        }
      }
    }

    /** getStreamAndPushMsg: a look-up, which removes the entry on an EOF. */
    method GetStream(id: nat, local: bool, eof: bool) returns (s: StreamObj?)
      requires Valid()
      modifies this`streamLocalMap, this`streamRemoteMap
      ensures Valid() && Streams(!local) == old(Streams(!local))
      ensures s != null <==> running && id in old(Streams(local))
      ensures s != null ==> s == old(Streams(local))[id] && s.id == id && s.local == local
      ensures Streams(local) == if s != null && eof then old(Streams(local)) - {id} else old(Streams(local))
    {
      s := null;
      if running {
        var m := Streams(local);
        if id in m {
          s := m[id];
          if eof {
            DeleteStream(id, local);
          }
        }
      }
    }

    method HalfClose(s: StreamObj)
      requires Valid()
      modifies this`streamLocalMap, this`streamRemoteMap, s`stateCloseCnt
      ensures Valid() && s.View() == old(s.View()).Count()
      ensures Streams(!s.local) == old(Streams(!s.local))
      ensures Streams(s.local) ==
              if running && s.stateCloseCnt == 2 then old(Streams(s.local)) - {s.id} else old(Streams(s.local))
    {
      s.stateCloseCnt := s.stateCloseCnt + 1;
      if s.stateCloseCnt == 2 {
        DeleteStream(s.id, s.local);
      }
    }

    method CloseRecv(s: StreamObj)
      requires Valid()
      modifies this`streamLocalMap, this`streamRemoteMap, s
      ensures Valid() && s.View() == old(s.View()).CloseRecv()
      ensures Streams(!s.local) == old(Streams(!s.local))
      ensures Streams(s.local) ==
              if running && !old(s.stateRecv) && s.stateCloseCnt == 2
              then old(Streams(s.local)) - {s.id} else old(Streams(s.local))
    {
      if !s.stateRecv {
        s.stateRecv := true;
        s.dataCloses := s.dataCloses + 1;
        HalfClose(s);
      }
    }

    /** What OnStreamMessage does to its Stream. */
    ghost function Received(before: M.Stream, m: M.StreamMsg, waits: bool): (v: M.Stream) {
      var queued := if m.data == [] || before.stateRecv || waits then before else before.Push(m);
      if m.eof && !waits then queued.CloseRecv() else queued
    }

    /** The receiver's side of one CmdStream message; handled says whether a handler is registered for its method. */
    method OnStreamMessage(id: nat, fromLocal: bool, m: M.StreamMsg, handled: bool)
      returns (s: StreamObj?, made: bool, waits: bool)
      requires Valid()
      modifies this, Streams(!fromLocal).Values
      ensures Valid() && running == old(running) && Streams(fromLocal) == old(Streams(fromLocal))
      ensures var found := old(running && id in Streams(!fromLocal));
              && made == (!found && fromLocal && handled)
              && (s != null <==> found || made)
              && (found ==> s == old(Streams(!fromLocal))[id])
      ensures made ==> fresh(s) && s.id == (if id == 0 then old(seqNo) + 1 else id) && !s.local
      ensures made ==> waits == (m.data != [] && s.cap == 0) && s.View() == Received(M.NewStream, m, waits)
      ensures s != null && !made ==>
                var before := old(Streams(!fromLocal)[id].View());
                && waits == (m.data != [] && !before.stateRecv && |before.queue| >= s.cap)
                && s.View() == Received(before, m, waits)
      ensures s == null ==> !waits && Streams(!fromLocal) == old(Streams(!fromLocal))
      ensures s != null && !made ==>
                Streams(!fromLocal) == if m.eof then old(Streams(!fromLocal)) - {id} else old(Streams(!fromLocal))
      ensures made ==> Streams(!fromLocal) == old(Streams(!fromLocal))[s.id := s]
    {
      var local := !fromLocal;
      made, waits := false, false;
      s := GetStream(id, local, m.eof);
      if s == null {
        if handled && !local {
          s := NewStream(id, false);
          made := true;
        } else {
          return;
        }
      }
      var released: bool;
      released, waits := s.OnMessage(m);
      if waits {
        return;
      }
      if m.eof {
        CloseRecv(s);
      }
    }

    /** CloseRecv of a Stream that is in neither map any more. */
    method CloseOne(s: StreamObj)
      requires streamLocalMap == map[] && streamRemoteMap == map[]
      modifies this`streamLocalMap, this`streamRemoteMap, s
      ensures streamLocalMap == map[] && streamRemoteMap == map[]
      ensures s.View() == old(s.View()).CloseRecv()
    {
      CloseRecv(s);
      assert Streams(s.local) == map[] && Streams(!s.local) == map[];
    }

    method CloseEach(all: set<StreamObj>)
      requires streamLocalMap == map[] && streamRemoteMap == map[]
      modifies this`streamLocalMap, this`streamRemoteMap, all
      ensures streamLocalMap == map[] && streamRemoteMap == map[]
      ensures forall s :: s in all ==> s.View() == old(s.View()).CloseRecv()
    {
      var todo := all;
      while todo != {}
        invariant todo <= all && streamLocalMap == map[] && streamRemoteMap == map[]
        invariant forall s :: s in all ==> s.View() == if s in todo then old(s.View()) else old(s.View()).CloseRecv()
        decreases todo
      {
        var s :| s in todo;
        CloseOne(s);
        todo := todo - {s};
      }
    }

    /** clearStream: both maps emptied, every Stream closed for receiving; toClose are the CloseSend goroutines. */
    method ClearStream() returns (toClose: set<StreamObj>)
      modifies this`streamLocalMap, this`streamRemoteMap, streamLocalMap.Values, streamRemoteMap.Values
      ensures streamLocalMap == map[] && streamRemoteMap == map[]
      ensures toClose == old(streamLocalMap.Values + streamRemoteMap.Values)
      ensures forall s :: s in toClose ==> s.View() == old(s.View()).CloseRecv()
    {
      toClose := streamLocalMap.Values + streamRemoteMap.Values;
      streamLocalMap, streamRemoteMap := map[], map[];
      CloseEach(toClose);
    }
  }
}
