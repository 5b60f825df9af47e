/**
 The cycle time of the sending loop, switched through a FIFO: mode 1 saves the
 current cycle and sets the fast one, any other mode restores what was saved.
 */
module CycleControl {

  /** What one read of the FIFO returns. */
  datatype Read = Data(mode: bv8) | EndOfFile | Failure

  function Commands(input: seq<Read>): seq<bv8> {
    if input == [] then []
    else
      var front, last := Commands(input[..|input| - 1]), input[|input| - 1];
      if last.Data? then front + [last.mode] else front
  }

  /** An end of file and a failed read are only logged: the commands are those of the other reads. */
  lemma {:induction false} OnlyLogged(a: seq<Read>, r: Read, b: seq<Read>)
    requires r == EndOfFile || r == Failure
    ensures Commands(a + [r] + b) == Commands(a + b)
  {
    if b == [] {
      assert (a + [r] + b)[..|a|] == a && a + b == a;
    } else {
      var front := b[..|b| - 1];
      OnlyLogged(a, r, front);
      assert (a + [r] + b)[..|a| + |b|] == a + [r] + front && (a + b)[..|a| + |b| - 1] == a + front;
    }
  }

  /** Reads that all succeed give their modes, as many and in the same order. */
  lemma {:induction false} DataGivesModes(modes: seq<bv8>, input: seq<Read>)
    requires |input| == |modes| && forall i :: 0 <= i < |modes| ==> input[i] == Data(modes[i])
    ensures Commands(input) == modes
  {
    if modes != [] {
      DataGivesModes(modes[..|modes| - 1], input[..|input| - 1]);
    }
  }

  /** The last read that succeeded. */
  predicate IsLastData(input: seq<Read>, k: int) {
    0 <= k < |input| && input[k].Data? && forall j :: k < j < |input| ==> !input[j].Data?
  }

  /** The saved cycle is lost: fast mode was entered twice in a row, or left no trace because the period was 0. */
  ghost predicate Spoiled(period: nat, commands: seq<bv8>) {
    || (exists i :: 0 < i < |commands| && commands[i - 1] == 1 && commands[i] == 1)
    || (period == 0 && 1 in commands)
  }

  /** The cycle after these commands, with no reference to what was saved. */
  ghost function CycleAfter(period: nat, fast: nat, commands: seq<bv8>): nat {
    if (commands != [] && commands[|commands| - 1] == 1) || Spoiled(period, commands) then fast else period
  }

  lemma SpoiledGrows(period: nat, commands: seq<bv8>, c: bv8)
    ensures Spoiled(period, commands + [c])
            <==> Spoiled(period, commands)
                 || (c == 1 && ((commands != [] && commands[|commands| - 1] == 1) || period == 0))
  {
    var more := commands + [c];
    if Spoiled(period, commands) {
      if i :| 0 < i < |commands| && commands[i - 1] == 1 && commands[i] == 1 {
        assert more[i - 1] == 1 && more[i] == 1;
      } else {
        assert 1 in more;
      }
    }
    if c == 1 {
      assert more[|commands|] == 1;
      if commands != [] && commands[|commands| - 1] == 1 {
        assert more[|commands| - 1] == 1;
      }
    }
  }

  /** Once lost, the period does not come back for the rest of the run. */
  lemma {:induction false} NeverRecovers(period: nat, fast: nat, commands: seq<bv8>, more: seq<bv8>)
    requires Spoiled(period, commands)
    ensures Spoiled(period, commands + more) && CycleAfter(period, fast, commands + more) == fast
  {
    if more == [] {
      assert commands + more == commands;
    } else {
      var last := |more| - 1;
      NeverRecovers(period, fast, commands, more[..last]);
      SpoiledGrows(period, commands + more[..last], more[last]);
      assert commands + more == commands + more[..last] + [more[last]];
    }
  }

  /** With a period other than 0, any single switch to fast mode and back restores it. */
  lemma OnceAndBack(period: nat, fast: nat, commands: seq<bv8>, c: bv8)
    requires period > 0 && c != 1 && !Spoiled(period, commands)
    requires commands != [] ==> commands[|commands| - 1] != 1
    ensures CycleAfter(period, fast, commands + [1]) == fast
    ensures CycleAfter(period, fast, commands + [1] + [c]) == period
  {
    SpoiledGrows(period, commands, 1);
    SpoiledGrows(period, commands + [1], c);
  }

  class Listener {
    var cycle: nat
    var operationMode: bv8
    const fast: nat

    constructor (period: nat, fast: nat)
      ensures cycle == period && this.fast == fast && operationMode == 0
    {
      cycle := period;
      this.fast := fast;
      operationMode := 0;
    }

    /** What is saved after these commands, as far as it matters. */
    ghost predicate Saved(period: nat, old_: nat, commands: seq<bv8>)
      reads this
    {
      && cycle == CycleAfter(period, fast, commands)
      && if Spoiled(period, commands) then old_ == fast || old_ == 0
         else old_ == if 1 in commands then period else 0
    }

    /** listen_fifo, for a run with this input. */
    method Listen(input: seq<Read>)
      modifies this`cycle, this`operationMode
      ensures cycle == CycleAfter(old(cycle), fast, Commands(input))
      ensures forall k :: IsLastData(input, k) ==> operationMode == input[k].mode
      ensures (forall k :: 0 <= k < |input| ==> !input[k].Data?) ==> operationMode == old(operationMode)
    {
      ghost var period := cycle;
      var cycleOld := 0;
      var i := 0;
      while i < |input|
        invariant 0 <= i <= |input|
        invariant Saved(period, cycleOld, Commands(input[..i]))
        invariant forall k :: IsLastData(input[..i], k) ==> operationMode == input[k].mode
        invariant (forall k :: 0 <= k < i ==> !input[k].Data?) ==> operationMode == old(operationMode)
      {
        ghost var before := Commands(input[..i]);
        assert input[..i + 1][..i] == input[..i];
        if input[i].Data? {
          SpoiledGrows(period, before, input[i].mode);
          operationMode := input[i].mode;
          if operationMode == 1 {
            cycleOld := cycle;
            cycle := fast;
          } else if cycleOld != 0 {
            cycle := cycleOld;
          }
          assert Commands(input[..i + 1]) == before + [operationMode];
        } else {
          assert forall k :: IsLastData(input[..i + 1], k) ==> IsLastData(input[..i], k);
        }
        i := i + 1;
      }
      assert input[..i] == input;
    }
  }
}
