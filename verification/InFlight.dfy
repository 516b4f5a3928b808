/** The concurrency gate of one site: a counter behind release functions that
    give their slot back once, however often they are called. */
module InFlight {

  // ---- meaning, without a counter ----

  /** How many of the slots granted so far are still out; `done[i]` says whether
      the i-th has been released. */
  function Out(done: seq<bool>): nat
  {
    if done == [] then 0 else Out(done[..|done| - 1]) + (if done[|done| - 1] then 0 else 1)
  }

  /** Some client asks for a slot, or calls the i-th release function, perhaps
      not for the first time. */
  datatype Step = Ask | GiveBack(i: nat)

  function After(max: int, done: seq<bool>, step: Step): seq<bool>
  {
    match step
    case Ask => if Out(done) < max then done + [false] else done
    case GiveBack(i) => if i < |done| then done[i := true] else done
  }

  function Run(max: int, steps: seq<Step>): seq<bool>
  {
    if steps == [] then [] else After(max, Run(max, steps[..|steps| - 1]), steps[|steps| - 1])
  }

  lemma OutAppend(done: seq<bool>, d: bool)
    ensures Out(done + [d]) == Out(done) + (if d then 0 else 1)
  {
    assert (done + [d])[..|done|] == done;
  }

  lemma {:induction false} OutUpdate(done: seq<bool>, i: nat)
    requires i < |done|
    ensures Out(done[i := true]) == Out(done) - (if done[i] then 0 else 1)
  {
    var n := |done| - 1;
    if i == n {
      assert done[i := true][..n] == done[..n];
    } else {
      assert done[i := true][..n] == done[..n][i := true];
      OutUpdate(done[..n], i);
    }
  }

  /** Whatever the interleaving, no more than `max` slots are ever out. */
  lemma {:induction false} NeverOverbooked(max: nat, steps: seq<Step>)
    ensures Out(Run(max, steps)) <= max
  {
    if steps != [] {
      var before, step := Run(max, steps[..|steps| - 1]), steps[|steps| - 1];
      NeverOverbooked(max, steps[..|steps| - 1]);
      match step {
        case Ask => OutAppend(before, false);
        case GiveBack(i) =>
          if i < |before| {
            OutUpdate(before, i);
          }
      }
    }
  }

  /** The i-th slot's release function was called after the slot was granted. */
  ghost predicate Called(max: int, steps: seq<Step>, i: nat)
  {
    exists j :: 0 <= j < |steps| && steps[j] == GiveBack(i) && i < |Run(max, steps[..j])|
  }

  lemma CalledByLast(max: int, steps: seq<Step>, i: nat)
    requires steps != []
    ensures var n := |steps| - 1;
            Called(max, steps, i) <==>
            Called(max, steps[..n], i) || (steps[n] == GiveBack(i) && i < |Run(max, steps[..n])|)
  {
    var n := |steps| - 1;
    assert forall j :: 0 <= j < n ==> steps[..n][..j] == steps[..j];
    if Called(max, steps[..n], i) {
      var j :| 0 <= j < n && steps[..n][j] == GiveBack(i) && i < |Run(max, steps[..n][..j])|;
      assert steps[j] == GiveBack(i) && i < |Run(max, steps[..j])|;
    }
    if Called(max, steps, i) {
      var j :| 0 <= j < |steps| && steps[j] == GiveBack(i) && i < |Run(max, steps[..j])|;
      if j < n {
        assert steps[..n][j] == GiveBack(i) && i < |Run(max, steps[..n][..j])|;
      }
    }
  }

  lemma {:induction false} NotCalledBeforeGrant(max: int, steps: seq<Step>, i: nat)
    requires |Run(max, steps)| <= i
    ensures !Called(max, steps, i)
  {
    if steps != [] {
      CalledByLast(max, steps, i);
      NotCalledBeforeGrant(max, steps[..|steps| - 1], i);
    }
  }

  /** A slot is back exactly when its release function has been called: once is
      enough, and more often changes nothing. */
  lemma {:induction false} BackWhenCalled(max: int, steps: seq<Step>, i: nat)
    requires i < |Run(max, steps)|
    ensures Run(max, steps)[i] <==> Called(max, steps, i)
  {
    var n := |steps| - 1;
    CalledByLast(max, steps, i);
    if i < |Run(max, steps[..n])| {
      BackWhenCalled(max, steps[..n], i);
    } else {
      NotCalledBeforeGrant(max, steps[..n], i);
    }
  }

  // ---- the gate ----

  /** A release function with its once-only flag. */
  class Handle {
    var done: bool

    constructor ()
      ensures !done
    {
      done := false;
    }
  }

  class Gate {
    const maxInFlight: int
    var inFlight: int
    /** Every handle granted so far. */
    ghost var granted: seq<Handle>

    ghost predicate Valid()
      reads this, granted
    {
      && (forall i, j :: 0 <= i < j < |granted| ==> granted[i] != granted[j])
      && inFlight == Out(Done())
    }

    ghost function Done(): seq<bool>
      reads this, granted
    {
      seq(|granted|, i requires 0 <= i < |granted| reads this, granted => granted[i].done)
    }

    constructor (maxInFlight: int)
      ensures Valid() && granted == [] && this.maxInFlight == maxInFlight
    {
      this.maxInFlight := maxInFlight;
      inFlight := 0;
      granted := [];
    }

    /** A capped gate grants a slot while one is free; an uncapped one always
        grants, and counts nothing. */
    method Acquire() returns (h: Handle?)
      requires Valid()
      modifies this
      ensures Valid()
      ensures maxInFlight > 0 ==> Done() == After(maxInFlight, old(Done()), Ask)
      ensures maxInFlight > 0 ==> (h != null <==> old(Out(Done())) < maxInFlight)
      ensures maxInFlight > 0 && h != null ==> fresh(h) && granted == old(granted) + [h]
      ensures maxInFlight <= 0 ==> h != null && fresh(h) && Done() == old(Done()) && granted == old(granted)
    {
      if maxInFlight <= 0 {
        h := new Handle();
        return;
      }
      if inFlight >= maxInFlight {
        return null;
      }
      inFlight := inFlight + 1;
      h := new Handle();
      OutAppend(Done(), false);
      granted := granted + [h];
      assert Done() == old(Done()) + [false];
    }

    method Release(h: Handle, ghost i: nat)
      requires Valid() && i < |granted| && granted[i] == h
      modifies this`inFlight, h
      ensures Valid() && granted == old(granted)
      ensures Done() == After(maxInFlight, old(Done()), GiveBack(i))
    {
      if !h.done {
        OutUpdate(Done(), i);
        h.done := true;
        inFlight := inFlight - 1;
        assert Done() == old(Done())[i := true];
      } else {
        assert Done() == old(Done())[i := true];
      }
    }
  }
}
