/**
 What a blocking Call gets, over every run: the response that was found for it,
 or nil if its done was closed; and who wakes it (client.go, sendRequest and
 dropMessage; handler.go, the response case of OnMessage).
 */
module SessionAnswers {
  import opened Prelude
  import opened Sessions

  // ------------------------------------------------------------ registration

  predicate Removes(u: Step, q: Seq) { u == DropTake(q) || u == Return(q) || u.ClearAll? || u.Restart? }

  /** addSession registers the call's own session if and only if the Client runs. */
  lemma RegisteredIffRunning(tr: seq<State>, steps: seq<Step>, i: nat, q: Seq)
    requires IsRun(tr, steps) && i < |steps| && steps[i] == Add(q)
    ensures q in tr[i + 1].table <==> tr[i].running
    ensures tr[i].running ==> tr[i + 1].table[q] == q && q in tr[i + 1].sessions && tr[i + 1].sessions[q].closes == 0
  {
    RunKeepsInv(tr, steps, i);
    RunKeepsInv(tr, steps, i + 1);
    MadeIsOffTable(tr[i], q);
    assert q in tr[i + 1].table ==> EntryOk(tr[i + 1], q);
  }

  lemma MadeIsOffTable(s: State, q: Seq)
    requires Inv(s)
    ensures q in s.calls && s.calls[q] == Made ==> q !in s.table
  {
    assert q in s.table ==> EntryOk(s, q);
  }

  lemma RegisteredStep(s: State, u: Step, q: Seq)
    requires Enabled(s, u) && q in s.table && s.table[q] == q && !Removes(u, q)
    ensures q in Apply(s, u).table && Apply(s, u).table[q] == q
  {
  }

  /** It stays registered until its call returns, a drop takes it, a reconnect clears or Restart replaces the table. */
  lemma {:induction false} StaysRegistered(tr: seq<State>, steps: seq<Step>, i: nat, j: nat, q: Seq)
    requires IsRun(tr, steps) && i <= j < |tr| && q in tr[i].table && tr[i].table[q] == q
    requires forall n {:trigger steps[n]} :: i <= n < j ==> !Removes(steps[n], q)
    ensures q in tr[j].table && tr[j].table[q] == q
  {
    if i < j {
      StaysRegistered(tr, steps, i, j - 1, q);
      RegisteredStep(tr[j - 1], steps[j - 1], q);
    }
  }

  // ------------------------------------------------------------- the response

  /** What the call receives: the oldest response, and nil only from a closed done. */
  lemma ReceiveGivesTheResponse(tr: seq<State>, steps: seq<Step>, i: nat, q: Seq)
    requires IsRun(tr, steps) && i < |steps| && steps[i] == Receive(q)
    ensures q in tr[i].sessions && q in tr[i + 1].got
    ensures tr[i].sessions[q].buf != [] ==> tr[i + 1].got[q] == Some(tr[i].sessions[q].buf[0])
    ensures tr[i].sessions[q].buf == [] ==> tr[i + 1].got[q] == None && tr[i].sessions[q].closes == 1
    ensures q in tr[i + 1].sessions && |tr[i + 1].sessions[q].buf| <= |tr[i].sessions[q].buf|
    ensures tr[i].sessions[q].buf != [] ==> tr[i + 1].sessions[q].buf == tr[i].sessions[q].buf[1..]
  {
    RunKeepsInv(tr, steps, i);
    assert SessionOk(tr[i], q);
  }

  predicate SenderIs(s: State, k: nat, x: Seq, m: Response) {
    k < |s.senders| && s.senders[k].x == x && s.senders[k].m == m
  }

  lemma SenderStep(s: State, u: Step, k: nat, x: Seq, m: Response)
    requires Enabled(s, u) && SenderIs(s, k, x, m)
    ensures SenderIs(Apply(s, u), k, x, m)
  {
  }

  lemma {:induction false} SenderStays(tr: seq<State>, steps: seq<Step>, i: nat, j: nat, k: nat, x: Seq, m: Response)
    requires IsRun(tr, steps) && i <= j < |tr| && SenderIs(tr[i], k, x, m)
    ensures SenderIs(tr[j], k, x, m)
  {
    if i < j {
      SenderStays(tr, steps, i, j - 1, k, x, m);
      SenderStep(tr[j - 1], steps[j - 1], k, x, m);
    }
  }

  /** Response m waits in call q's done. */
  predicate Buffered(s: State, q: Seq, m: Response) { q in s.calls && q in s.sessions && s.sessions[q].buf == [m] }

  lemma BufferedStep(s: State, u: Step, q: Seq, m: Response)
    requires Enabled(s, u) && Buffered(s, q, m) && u != Receive(q)
    ensures Buffered(Apply(s, u), q, m)
  {
  }

  lemma {:induction false} BufferedUntilReceived(tr: seq<State>, steps: seq<Step>, i: nat, j: nat, q: Seq, m: Response)
    requires IsRun(tr, steps) && i <= j < |tr| && Buffered(tr[i], q, m)
    requires forall n {:trigger steps[n]} :: i <= n < j ==> steps[n] != Receive(q)
    ensures Buffered(tr[j], q, m)
  {
    if i < j {
      BufferedUntilReceived(tr, steps, i, j - 1, q, m);
      BufferedStep(tr[j - 1], steps[j - 1], q, m);
    }
  }

  /** A response that carries a registered number goes to that call; sent while open, it waits in its done. */
  lemma ResponseIsBuffered(tr: seq<State>, steps: seq<Step>, found: nat, sent: nat, m: Response)
    requires IsRun(tr, steps) && found < sent < |steps| && steps[found] == ResponseGet(m) && m.seq_ in tr[found].table
    requires steps[sent] == ResponseSend(|tr[found].senders|)
    ensures m.seq_ in tr[sent].sessions
    ensures tr[sent].sessions[m.seq_].closes == 0 ==> Buffered(tr[sent + 1], m.seq_, m)
  {
    var k := |tr[found].senders|;
    RunKeepsInv(tr, steps, found);
    assert EntryOk(tr[found], m.seq_);
    assert SenderIs(tr[found + 1], k, m.seq_, m);
    SenderStays(tr, steps, found + 1, sent, k, m.seq_, m);
    RunKeepsInv(tr, steps, sent);
    assert SenderOk(tr[sent], k) && SessionOk(tr[sent], m.seq_);
  }

  /**
   End to end: the response found for a registered call, sent while its done is
   open, is what the call's first receive after that returns, also if the done
   is closed in between.
   */
  lemma ResponseIsReturned(tr: seq<State>, steps: seq<Step>, found: nat, sent: nat, i: nat, m: Response)
    requires IsRun(tr, steps) && found < sent < i < |steps|
    requires steps[found] == ResponseGet(m) && m.seq_ in tr[found].table
    requires steps[sent] == ResponseSend(|tr[found].senders|)
    requires m.seq_ in tr[sent].sessions && tr[sent].sessions[m.seq_].closes == 0
    requires steps[i] == Receive(m.seq_)
    requires forall n {:trigger steps[n]} :: sent < n < i ==> steps[n] != Receive(m.seq_)
    ensures m.seq_ in tr[i + 1].got && tr[i + 1].got[m.seq_] == Some(m)
  {
    ResponseIsBuffered(tr, steps, found, sent, m);
    BufferedUntilReceived(tr, steps, sent + 1, i, m.seq_, m);
    ReceiveGivesTheResponse(tr, steps, i, m.seq_);
  }

  // ------------------------------------------------------------- being woken

  /** A waiting call that has nothing yet can receive as soon as a response is there or its done is closed. */
  lemma WokenCallCanReceive(tr: seq<State>, steps: seq<Step>, i: nat, q: Seq)
    requires IsRun(tr, steps) && i < |tr| && q in tr[i].calls && tr[i].calls[q] == Waiting && q !in tr[i].got
    ensures q in tr[i].sessions
    ensures Enabled(tr[i], Receive(q)) <==> tr[i].sessions[q].buf != [] || tr[i].sessions[q].closes > 0
  {
    RunKeepsInv(tr, steps, i);
  }

  /** dropMessage of a registered call's request takes the session out, and its close then wakes the call. */
  lemma DropWakesItsCall(tr: seq<State>, steps: seq<Step>, i: nat, q: Seq)
    requires IsRun(tr, steps) && i < |steps| && steps[i] == DropTake(q) && q in tr[i].table
    ensures var r, k := tr[i + 1], |tr[i].closers|;
            && q !in r.table && Enabled(r, DropClose(k))
            && q in Apply(r, DropClose(k)).sessions && Apply(r, DropClose(k)).sessions[q].closes == 1
  {
    RunKeepsInv(tr, steps, i);
    assert EntryOk(tr[i], q);
  }

  /** The deferred deleteSession: a call that returned is not in the table any more, and receives nothing more. */
  lemma ReturnedIsOver(tr: seq<State>, steps: seq<Step>, i: nat, j: nat, q: Seq)
    requires IsRun(tr, steps) && i < j < |tr| && steps[i] == Return(q)
    ensures q !in tr[j].table && (j < |steps| ==> steps[j] != Receive(q))
  {
    assert OffTable(tr[i + 1], q);
    LeftForGood(tr, steps, i + 1, j, q);
    LeftStays(tr, steps, i + 1, j, q);
  }

  lemma LeftStep(s: State, u: Step, q: Seq)
    requires Enabled(s, u) && q in s.calls && s.calls[q] == Left
    ensures q in Apply(s, u).calls && Apply(s, u).calls[q] == Left
  {
  }

  lemma {:induction false} LeftStays(tr: seq<State>, steps: seq<Step>, i: nat, j: nat, q: Seq)
    requires IsRun(tr, steps) && i <= j < |tr| && q in tr[i].calls && tr[i].calls[q] == Left
    ensures q in tr[j].calls && tr[j].calls[q] == Left
  {
    if i < j {
      LeftStays(tr, steps, i, j - 1, q);
      LeftStep(tr[j - 1], steps[j - 1], q);
    }
  }

  predicate SenderOver(s: State, k: nat) { k < |s.senders| && s.senders[k].over }

  lemma OverStep(s: State, u: Step, k: nat)
    requires Enabled(s, u) && SenderOver(s, k)
    ensures SenderOver(Apply(s, u), k)
  {
  }

  lemma {:induction false} OverStays(tr: seq<State>, steps: seq<Step>, i: nat, j: nat, k: nat)
    requires IsRun(tr, steps) && i <= j < |tr| && SenderOver(tr[i], k)
    ensures SenderOver(tr[j], k)
  {
    if i < j {
      OverStays(tr, steps, i, j - 1, k);
      OverStep(tr[j - 1], steps[j - 1], k);
    }
  }

  /** A response that was found is sent at most once. */
  lemma SentOnce(tr: seq<State>, steps: seq<Step>, i: nat, j: nat, k: nat)
    requires IsRun(tr, steps) && i < j < |steps| && steps[i] == ResponseSend(k)
    ensures steps[j] != ResponseSend(k)
  {
    assert SenderOver(tr[i + 1], k);
    OverStays(tr, steps, i + 1, j, k);
  }

  /** Restart begins with an empty table, whose calls nobody wakes but their own timeouts. */
  lemma RestartForgets(tr: seq<State>, steps: seq<Step>, i: nat)
    requires IsRun(tr, steps) && i < |steps| && steps[i].Restart?
    ensures tr[i + 1].table == map[] && tr[i + 1].sessions == tr[i].sessions
  {
  }

  /** The last Stop or Restart of the steps was no Stop. */
  function NotStopped(steps: seq<Step>): (r: bool) {
    if steps == [] then true
    else
      var last := steps[|steps| - 1];
      !last.Stop? && (last.Restart? || NotStopped(steps[..|steps| - 1]))
  }

  lemma RunningAfter(s: State, u: Step)
    requires Enabled(s, u)
    ensures Apply(s, u).running == if u.Stop? then false else u.Restart? || s.running
  {
  }

  lemma {:induction false} RunningIffNotStopped(tr: seq<State>, steps: seq<Step>, i: nat)
    requires IsRun(tr, steps) && i < |tr|
    ensures tr[i].running == NotStopped(steps[..i])
  {
    if i > 0 {
      RunningIffNotStopped(tr, steps, i - 1);
      RunningAfter(tr[i - 1], steps[i - 1]);
      assert steps[..i][..i - 1] == steps[..i - 1];
    }
  }

  // ---------------------------------------------------------- what can happen

  lemma Continue(tr: seq<State>, steps: seq<Step>, u: Step) returns (more: seq<State>, longer: seq<Step>)
    requires IsRun(tr, steps) && Enabled(tr[|steps|], u)
    ensures more == tr + [Apply(tr[|steps|], u)] && longer == steps + [u] && IsRun(more, longer)
  {
    more, longer := tr + [Apply(tr[|steps|], u)], steps + [u];
    assert forall i {:trigger longer[i]} :: 0 <= i < |steps| ==> longer[i] == steps[i];
  }

  /** Any run with the Client running goes on with a new call that is registered. */
  lemma CallCanBegin(tr: seq<State>, steps: seq<Step>, q: Seq) returns (tr': seq<State>, steps': seq<Step>)
    requires IsRun(tr, steps) && tr[|steps|].running && q !in tr[|steps|].calls
    ensures IsRun(tr', steps') && tr <= tr' && steps <= steps'
    ensures var r := tr'[|steps'|];
            && q in r.table && r.table[q] == q && q in r.calls && r.calls[q] == Waiting && q !in r.got
            && q in r.sessions && r.sessions[q] == Session(q, [], 0)
  {
    RunKeepsInv(tr, steps, |steps|);
    RunKeepsGot(tr, steps, |steps|, q);
    tr', steps' := Continue(tr, steps, Make(q));
    tr', steps' := Continue(tr', steps', Add(q));
  }

  lemma {:induction false} RunKeepsGot(tr: seq<State>, steps: seq<Step>, i: nat, q: Seq)
    requires IsRun(tr, steps) && i < |tr|
    ensures q in tr[i].got ==> q in tr[i].calls
  {
    if i > 0 {
      RunKeepsGot(tr, steps, i - 1, q);
      GotStep(tr[i - 1], steps[i - 1], q);
    }
  }

  lemma GotStep(s: State, u: Step, q: Seq)
    requires Enabled(s, u) && (q in s.got ==> q in s.calls)
    ensures q in Apply(s, u).got ==> q in Apply(s, u).calls
  {
  }

  /** Then its response can arrive, and the call returns it. */
  lemma CallCanBeAnswered(tr: seq<State>, steps: seq<Step>, m: Response) returns (tr': seq<State>, steps': seq<Step>)
    requires IsRun(tr, steps) && tr[|steps|].running && m.seq_ !in tr[|steps|].calls
    ensures IsRun(tr', steps') && tr <= tr' && steps <= steps'
    ensures var r := tr'[|steps'|];
            && m.seq_ in r.got && r.got[m.seq_] == Some(m)
            && m.seq_ in r.calls && r.calls[m.seq_] == Left && m.seq_ !in r.table
  {
    tr', steps' := CallCanBegin(tr, steps, m.seq_);
    var k := |tr'[|steps'|].senders|;
    tr', steps' := Continue(tr', steps', ResponseGet(m));
    tr', steps' := Continue(tr', steps', ResponseSend(k));
    tr', steps' := Continue(tr', steps', Receive(m.seq_));
    tr', steps' := Continue(tr', steps', Return(m.seq_));
  }

  /** Or its request can be dropped, and the call gets nil; a response after that is lost. */
  lemma CallCanBeDropped(tr: seq<State>, steps: seq<Step>, q: Seq) returns (tr': seq<State>, steps': seq<Step>)
    requires IsRun(tr, steps) && tr[|steps|].running && q !in tr[|steps|].calls
    ensures IsRun(tr', steps') && tr <= tr' && steps <= steps'
    ensures q in tr'[|steps'|].got && tr'[|steps'|].got[q] == None
  {
    tr', steps' := CallCanBegin(tr, steps, q);
    var k := |tr'[|steps'|].closers|;
    tr', steps' := Continue(tr', steps', DropTake(q));
    tr', steps' := Continue(tr', steps', DropClose(k));
    tr', steps' := Continue(tr', steps', Receive(q));
  }

  /** A response found in time and sent after the close finds done closed: its sender goes on, and the call gets nil. */
  lemma LateResponseIsLost(tr: seq<State>, steps: seq<Step>, i: nat, k: nat)
    requires IsRun(tr, steps) && i < |steps| && steps[i] == ResponseSend(k)
    ensures k < |tr[i].senders| && tr[i].senders[k].x in tr[i].sessions
    ensures tr[i].sessions[tr[i].senders[k].x].closes > 0 ==> tr[i + 1].sessions == tr[i].sessions
  {
  }

  /** Or a reconnect can clear the table, which wakes the call with nil as well. */
  lemma CallCanBeCleared(tr: seq<State>, steps: seq<Step>, q: Seq) returns (tr': seq<State>, steps': seq<Step>)
    requires IsRun(tr, steps) && tr[|steps|].running && q !in tr[|steps|].calls
    ensures IsRun(tr', steps') && tr <= tr' && steps <= steps' && tr'[|steps'|].table == map[]
    ensures q in tr'[|steps'|].got && tr'[|steps'|].got[q] == None
  {
    tr', steps' := CallCanBegin(tr, steps, q);
    assert q in tr'[|steps'|].table.Values by { assert tr'[|steps'|].table[q] == q; }
    tr', steps' := Continue(tr', steps', ClearAll);
    tr', steps' := Continue(tr', steps', Receive(q));
  }

  /** Or it gives up; and at any time the Client can be stopped and restarted, with no call registered. */
  lemma CallCanGiveUp(tr: seq<State>, steps: seq<Step>, q: Seq) returns (tr': seq<State>, steps': seq<Step>)
    requires IsRun(tr, steps) && q in tr[|steps|].calls && tr[|steps|].calls[q] == Waiting
    ensures IsRun(tr', steps') && tr <= tr' && steps <= steps'
    ensures q in tr'[|steps'|].calls && tr'[|steps'|].calls[q] == Left
    ensures tr'[|steps'|].running && tr'[|steps'|].table == map[]
  {
    tr', steps' := Continue(tr, steps, GiveUp(q));
    tr', steps' := Continue(tr', steps', Return(q));
    tr', steps' := Continue(tr', steps', Stop);
    tr', steps' := Continue(tr', steps', Restart);
  }
}
