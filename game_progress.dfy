/** The progress counter of src/gameState.ts: how many ducklings have been brought home
    out of a fixed total. */
module GameProgress {

  /** The count after one `foundDuckling()` call: one more while the total is not reached,
      otherwise the same. */
  function AfterFound(found: int, total: int): (r: int)
    ensures found <= r <= found + 1
    ensures r == found + 1 <==> found < total
    ensures found <= total ==> r <= total
  {
    if found < total then found + 1 else found
  }

  /** `allDucklingsFound`: the count has reached the total. */
  predicate AllFound(found: int, total: int) {
    found >= total
  }

  /** The count after `calls` consecutive `foundDuckling()` calls starting from `found`. */
  function FoundAfter(found: int, total: int, calls: nat): int
    decreases calls
  {
    if calls == 0 then found else FoundAfter(AfterFound(found, total), total, calls - 1)
  }

  /** Repeated calls count up one by one and stop at the total; a count already at or above
      the total never moves. */
  lemma {:induction false} FoundAfterSaturates(found: int, total: int, calls: nat)
    ensures FoundAfter(found, total, calls) ==
              if found >= total then found else if found + calls <= total then found + calls else total
    decreases calls
  {
    if calls > 0 {
      FoundAfterSaturates(AfterFound(found, total), total, calls - 1);
    }
  }

  /** Starting from a fresh counter, the game is complete exactly after `total` calls (and at
      once when the total is not positive). */
  lemma {:induction false} CompleteAfterTotalCalls(total: int, calls: nat)
    ensures AllFound(FoundAfter(0, total, calls), total) <==> total <= 0 || calls >= total
  {
    FoundAfterSaturates(0, total, calls);
  }

  class GameState {
    var ducklingsFound: int
    const totalDucklings: int

    /** The counter keeps within its bounds; it holds when the total is not negative. */
    ghost predicate Valid()
      reads this
    {
      0 <= ducklingsFound <= totalDucklings
    }

    constructor (totalDucklings: int := 66)
      ensures ducklingsFound == 0 && this.totalDucklings == totalDucklings
      ensures totalDucklings >= 0 ==> Valid()
      ensures AllDucklingsFound() <==> totalDucklings <= 0
    {
      ducklingsFound := 0;
      this.totalDucklings := totalDucklings;
    }

    method FoundDuckling()
      modifies this
      ensures ducklingsFound == AfterFound(old(ducklingsFound), totalDucklings)
      ensures old(ducklingsFound) <= ducklingsFound
      ensures old(Valid()) ==> Valid()
    {
      if ducklingsFound < totalDucklings {
        ducklingsFound := ducklingsFound + 1;
      }
    }

    method Reset()
      modifies this
      ensures ducklingsFound == 0
      ensures old(Valid()) ==> Valid()
    {
      ducklingsFound := 0;
    }

    function TotalDucklingsCount(): int
      reads this
    {
      totalDucklings
    }

    predicate AllDucklingsFound()
      reads this
    {
      AllFound(ducklingsFound, totalDucklings)
    }
  }
}
