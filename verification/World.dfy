/** What the engine cannot control: the clock it reads and the outcome of each simulated retry.
    Both are arbitrary streams, consumed in call order, so every result holds for all of them. */
module World {

  datatype Oracle = Oracle(clock: nat -> int, coin: nat -> bool)

  ghost predicate ClockAdvances(o: Oracle) {
    forall i: nat, j: nat :: i <= j ==> o.clock(i) <= o.clock(j)
  }

  class Environment {
    const oracle: Oracle
    var tick: nat  // clock readings so far
    var flip: nat  // outcomes drawn so far

    constructor (oracle: Oracle)
      ensures this.oracle == oracle && tick == 0 && flip == 0
    {
      this.oracle := oracle;
      tick, flip := 0, 0;
    }

    method Now() returns (t: int)
      modifies this`tick
      ensures t == oracle.clock(old(tick)) && tick == old(tick) + 1
    {
      t := oracle.clock(tick);
      tick := tick + 1;
    }

    method Flip() returns (b: bool)
      modifies this`flip
      ensures b == oracle.coin(old(flip)) && flip == old(flip) + 1
    {
      b := oracle.coin(flip);
      flip := flip + 1;
    }
  }
}
