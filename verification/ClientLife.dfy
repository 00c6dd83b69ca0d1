/**
 The lock sections of Client (client.go) that start, stop and replace a
 generation, as methods of a class over the channels of all generations, each
 proved to be its function on Life.
 */
module ClientLife {
  import opened Generations

  /** A close-only signal channel; closes counts the close calls. */
  class Signal {
    var closes: nat

    constructor()
      ensures closes == 0
    {
      closes := 0;
    }
  }

  class Client {
    var running: bool
    var reconnecting: bool
    var chClose: Signal
    var recvDone: Signal?
    ghost var generations: seq<Signal>     // every chClose so far, the current one last

    ghost predicate Valid()
      reads this
    {
      && |generations| > 0 && chClose == generations[|generations| - 1]
      && forall i, j :: 0 <= i < j < |generations| ==> generations[i] != generations[j]
    }

    ghost function Closes(): (r: seq<nat>)
      reads this, generations
      ensures |r| == |generations|
    {
      seq(|generations|, i requires 0 <= i < |generations| reads this, generations => generations[i].closes)
    }

    ghost function View(): (r: Life)
      reads this, generations
    {
      Life(running, reconnecting, recvDone != null, Closes())
    }

    constructor()
      ensures Valid() && fresh(generations) && View() == NewLife
    {
      running, reconnecting, recvDone := false, false, null;
      var ch := new Signal();
      chClose, generations := ch, [ch];
    }

    /** closeChan, on the chClose of generation g. */
    method CloseIfOpen(ch: Signal, ghost g: Gen)
      requires Valid() && g < |generations| && generations[g] == ch
      modifies ch
      ensures Valid() && Closes() == CloseChan(old(Closes()), g)
    {
      if ch.closes == 0 {
        ch.closes := ch.closes + 1;
      }
      assert forall i :: 0 <= i < |generations| && i != g ==> generations[i] != ch;
    }

    method Run() returns (started: bool)
      requires Valid()
      modifies this
      ensures Valid() && generations == old(generations) && View() == Ran(old(View()))
      ensures started == !old(running)
    {
      started := !running;
      if started {
        running := true;
        recvDone := new Signal();
      }
    }

    method Stop()
      requires Valid()
      modifies this`running, chClose
      ensures Valid() && View() == Closed(old(View()), |generations| - 1)
    {
      running := false;
      CloseIfOpen(chClose, |generations| - 1);
    }

    /** The lock section of closeAndClean, run by the loop of generation g on its own chClose. */
    method CloseAndClean(ch: Signal, ghost g: Gen)
      requires Valid() && g < |generations| && generations[g] == ch
      modifies this`running, ch
      ensures Valid() && View() == Closed(old(View()), g)
    {
      running := false;
      CloseIfOpen(ch, g);
    }

    /** Restart's second lock section, for a dial that succeeds or fails. */
    method Install(dialOk: bool) returns (installed: bool)
      requires Valid()
      modifies this
      ensures Valid() && View() == Installed(old(View()), dialOk)
      ensures old(generations) <= generations
      ensures forall i :: |old(generations)| <= i < |generations| ==> fresh(generations[i])
      ensures installed == (!old(running) && dialOk)
    {
      installed := !running && dialOk;
      if installed {
        var ch := new Signal();
        chClose, generations := ch, generations + [ch];
        recvDone := new Signal();
        running, reconnecting := true, false;
        assert Closes() == old(Closes()) + [0];
      }
    }
  }
}
