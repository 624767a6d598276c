/** What can go wrong outside the program while it works on the stores: any access may fail without
    effect, and other writers may get in between. */
module Interference {

  /** Everything that went wrong so far: failed store calls, writes refused because the record had
      moved on, and times others wrote in between. */
  datatype Log = Log(faults: nat, conflicts: nat, rivals: nat)

  predicate Later(a: Log, b: Log) {
    a.faults <= b.faults && a.conflicts <= b.conflicts && a.rivals <= b.rivals
  }

  predicate FaultsOnly(a: Log, b: Log) { b == a.(faults := b.faults) && b.faults >= a.faults }

  /** Between a and b at most one store call failed, and if one did, no write was refused. */
  predicate Mild(a: Log, b: Log) {
    b.faults == a.faults || (b.faults == a.faults + 1 && b.conflicts == a.conflicts)
  }

  class World {
    ghost var log: Log
    var minted: nat

    constructor ()
      ensures log == Log(0, 0, 0) && minted == 0
    {
      log, minted := Log(0, 0, 0), 0;
    }

    /** A fresh id: longer than any before. */
    method Mint() returns (id: string)
      modifies this`minted
      ensures |id| == old(minted) && minted == old(minted) + 1
    {
      id := seq(minted, i => 'i');
      minted := minted + 1;
    }

    method Fails() returns (down: bool)
      modifies this`log
      ensures log == old(log).(faults := old(log).faults + if down then 1 else 0)
    {
      down := *;
      log := log.(faults := log.faults + if down then 1 else 0);
    }

    method Interferes() returns (busy: bool)
      modifies this`log
      ensures log == old(log).(rivals := old(log).rivals + if busy then 1 else 0)
    {
      busy := *;
      log := log.(rivals := log.rivals + if busy then 1 else 0);
    }

    /** A write was refused. */
    ghost method Refuse()
      modifies this`log
      ensures log == old(log).(conflicts := old(log).conflicts + 1)
    {
      log := log.(conflicts := log.conflicts + 1);
    }
  }
}
