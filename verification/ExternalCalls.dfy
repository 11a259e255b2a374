/**
 The outside world, as the procedures see it: a call works, or it throws, and a call
 that throws may or may not have taken effect first.
 */
module ExternalCalls {

  datatype Answer = Works | Throws(applied: bool) {
    /** Whether the call's effect happened. */
    predicate Took() {
      Works? || applied
    }
  }

  /** None of the calls number `from` to `past - 1` threw. */
  predicate AllWorked(fate: nat -> Answer, from: nat, past: nat) {
    forall i :: from <= i < past ==> fate(i).Works?
  }

  lemma NoneYet(fate: nat -> Answer, from: nat)
    ensures AllWorked(fate, from, from)
  {
  }

  lemma OneMore(fate: nat -> Answer, from: nat, past: nat)
    requires from <= past
    ensures AllWorked(fate, from, past + 1) <==> AllWorked(fate, from, past) && fate(past).Works?
  {
  }

  lemma WorkedOn(fate: nat -> Answer, from: nat, middle: nat, past: nat)
    requires from <= middle <= past
    ensures AllWorked(fate, from, past) <==> AllWorked(fate, from, middle) && AllWorked(fate, middle, past)
  {
  }

  /** The fates of all calls, unknown to the code that makes them, and how many were made. */
  class Outside {
    const fate: nat -> Answer
    var made: nat

    constructor (fate: nat -> Answer)
      ensures this.fate == fate && made == 0
    {
      this.fate, made := fate, 0;
    }

    method Next() returns (a: Answer)
      modifies this
      ensures a == fate(old(made)) && made == old(made) + 1
    {
      a := fate(made);
      made := made + 1;
    }
  }
}
