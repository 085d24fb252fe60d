/** paced_wait of scripts/run_dinaut_three_dot_gemma_batches.py: sends wait until the tokens
    counted in the last 62 seconds leave room for theirs. */
module Pacing {

  /** A batch folder with a started file; `rejected` when its saved answer is not 200. */
  datatype Started = Started(at: real, tokens: nat, rejected: bool)

  datatype Model = Gemma4 | FlashLite

  const WINDOW := 62.0

  /** INPUT_BUDGET, which the choice of the model sets. */
  function BudgetOf(model: Model): nat { if model == Gemma4 then 14500 else 30000 }

  function Recent(sends: seq<Started>, now: real): seq<Started> {
    if sends == [] then []
    else
      var last := sends[|sends| - 1];
      Recent(sends[..|sends| - 1], now) + if !last.rejected && now - last.at < WINDOW then [last] else []
  }

  function Tokens(sends: seq<Started>): nat {
    if sends == [] then 0 else Tokens(sends[..|sends| - 1]) + sends[|sends| - 1].tokens
  }

  function Oldest(recent: seq<Started>): (r: real)
    requires recent != []
    ensures exists i :: 0 <= i < |recent| && recent[i].at == r
    ensures forall i :: 0 <= i < |recent| ==> r <= recent[i].at
  {
    var last := recent[|recent| - 1].at;
    if |recent| == 1 then last
    else
      var rest := Oldest(recent[..|recent| - 1]);
      if last < rest then last else rest
  }

  function Max(a: real, b: real): real { if a < b then b else a }

  /** The folder as one look at its files reads it. */
  method ReadRecent(sends: seq<Started>, now: real) returns (recent: seq<Started>)
    ensures recent == Recent(sends, now)
  {
    recent := [];
    for i := 0 to |sends|
      invariant recent == Recent(sends[..i], now)
    {
      assert sends[..i + 1][..i] == sends[..i];
      if !sends[i].rejected && now - sends[i].at < WINDOW { recent := recent + [sends[i]]; }
    }
    assert sends[..|sends|] == sends;
  }

  lemma {:induction false} RecentMembers(sends: seq<Started>, now: real, i: nat)
    requires i < |Recent(sends, now)|
    ensures now - Recent(sends, now)[i].at < WINDOW
  {
    var n := |sends| - 1;
    if i < |Recent(sends[..n], now)| { RecentMembers(sends[..n], now, i); }
  }

  /** A later look sees no more than an earlier one. */
  lemma {:induction false} RecentShrinks(sends: seq<Started>, now: real, later: real)
    requires now <= later
    ensures |Recent(sends, later)| <= |Recent(sends, now)|
    ensures |Recent(sends, later)| == |Recent(sends, now)| ==> Recent(sends, later) == Recent(sends, now)
  {
    if sends != [] { RecentShrinks(sends[..|sends| - 1], now, later); }
  }

  /** Waiting for the oldest recent send to leave the window removes it. */
  lemma OldestLeaves(sends: seq<Started>, now: real, later: real)
    requires Recent(sends, now) != [] && later >= now && later >= Oldest(Recent(sends, now)) + WINDOW
    ensures |Recent(sends, later)| < |Recent(sends, now)|
  {
    var recent := Recent(sends, now);
    RecentShrinks(sends, now, later);
    if |Recent(sends, later)| == |recent| {
      var i :| 0 <= i < |recent| && recent[i].at == Oldest(recent);
      RecentMembers(sends, later, i);
    }
  }

  predicate RoomAt(sends: seq<Started>, now: real, tokens: nat, budget: nat) {
    Tokens(Recent(sends, now)) + tokens <= budget
  }

  /** Before the oldest counted send leaves, the same sends count. */
  lemma {:induction false} NobodyLeaves(sends: seq<Started>, now: real, later: real)
    requires now <= later && forall i :: 0 <= i < |Recent(sends, now)| ==> later - Recent(sends, now)[i].at < WINDOW
    ensures Recent(sends, later) == Recent(sends, now)
  {
    if sends != [] {
      var n := |sends| - 1;
      var before := Recent(sends[..n], now);
      assert forall i :: 0 <= i < |before| ==> Recent(sends, now)[i] == before[i];
      if !sends[n].rejected && now - sends[n].at < WINDOW { assert Recent(sends, now)[|before|] == sends[n]; }
      NobodyLeaves(sends[..n], now, later);
    }
  }

  /** The wait loop.  Waking the i-th time may come `late(i)` after the planned moment; the
      clock never runs backwards.  It ends with room for the next request, and each turn has
      waited for one send to leave the window.  Woken in time, it ends at the first moment with
      room. */
  method PacedWait(model: Model, sends: seq<Started>, tokens: nat, budget: nat, start: real, late: nat -> real)
    returns (now: real, turns: nat)
    requires tokens <= budget && forall i :: late(i) >= 0.0
    ensures now >= start
    ensures model == Gemma4 ==> Tokens(Recent(sends, now)) + tokens <= budget
    ensures model == FlashLite ==> now == start
    ensures turns <= |sends|
    ensures model == Gemma4 && Tokens(Recent(sends, start)) + tokens <= budget ==> now == start
    ensures (forall i :: late(i) == 0.0) ==> forall t :: start <= t < now ==> !RoomAt(sends, t, tokens, budget)
  {
    now, turns := start, 0;
    if model != Gemma4 { return; }
    RecentSize(sends, now);
    var recent := ReadRecent(sends, now);
    while Tokens(recent) + tokens > budget
      invariant now >= start && recent == Recent(sends, now)
      invariant turns + |recent| <= |sends|
      invariant turns == 0 ==> now == start
      invariant turns > 0 ==> Tokens(Recent(sends, start)) + tokens > budget
      invariant (forall i :: late(i) == 0.0) ==> forall t :: start <= t < now ==> !RoomAt(sends, t, tokens, budget)
      decreases |recent|
    {
      assert recent != [];
      var wait := Max(0.0, Oldest(recent) + WINDOW - now);
      forall t | now <= t < now + wait ensures !RoomAt(sends, t, tokens, budget) { NobodyLeaves(sends, now, t); }
      OldestLeaves(sends, now, now + wait + late(turns));
      now := now + wait + late(turns);
      recent := ReadRecent(sends, now);
      turns := turns + 1;
    }
  }

  lemma {:induction false} RecentSize(sends: seq<Started>, now: real)
    ensures |Recent(sends, now)| <= |sends|
  {
    if sends != [] { RecentSize(sends[..|sends| - 1], now); }
  }

  // ----- All windows --------------------------------------------------------------------------

  predicate InWindow(s: Started, from: real) { !s.rejected && from <= s.at < from + 62.0 }

  function WindowTokens(sends: seq<Started>, from: real): nat {
    if sends == [] then 0
    else
      var last := sends[|sends| - 1];
      WindowTokens(sends[..|sends| - 1], from) + if InWindow(last, from) then last.tokens else 0
  }

  /** What a look at the folder lets through for each model. */
  predicate Room(model: Model, sends: seq<Started>, now: real, tokens: nat) {
    model == Gemma4 ==> Tokens(Recent(sends, now)) + tokens <= BudgetOf(model)
  }

  /** Send k is within the budget by itself, and a look no later than its own start let it
      through. */
  predicate LetThrough(model: Model, sends: seq<Started>, checks: seq<real>, k: nat)
    requires k < |sends| && |checks| == |sends|
  {
    checks[k] <= sends[k].at && sends[k].tokens <= BudgetOf(model) && Room(model, sends[..k], checks[k], sends[k].tokens)
  }

  /** The sends of one coordinator, one after the other. */
  ghost predicate PacedRun(model: Model, sends: seq<Started>, checks: seq<real>) {
    |checks| == |sends| && forall k :: 0 <= k < |sends| ==> LetThrough(model, sends, checks, k)
  }

  ghost predicate EveryWindowFits(model: Model, sends: seq<Started>) {
    forall from: real :: WindowTokens(sends, from) <= if model == Gemma4 then 14500 else 30000
  }

  lemma {:induction false} WindowIsRecent(sends: seq<Started>, from: real, now: real)
    requires now < from + WINDOW
    ensures WindowTokens(sends, from) <= Tokens(Recent(sends, now))
  {
    if sends != [] {
      var n := |sends| - 1;
      WindowIsRecent(sends[..n], from, now);
      var before, after := Recent(sends[..n], now), Recent(sends, now);
      if after != before { assert after[..|after| - 1] == before; }
    }
  }

  /** With sequential sends, no 62-second window ever holds more counted tokens of requests
      that were not rejected than the budget of the paced model. */
  lemma {:induction false} WindowsWithinBudget(sends: seq<Started>, checks: seq<real>, from: real)
    requires PacedRun(Gemma4, sends, checks)
    ensures WindowTokens(sends, from) <= 14500
  {
    if sends != [] {
      var n := |sends| - 1;
      assert LetThrough(Gemma4, sends, checks, n);
      if InWindow(sends[n], from) {
        WindowIsRecent(sends[..n], from, checks[n]);
      } else {
        forall k | 0 <= k < n ensures LetThrough(Gemma4, sends[..n], checks[..n], k) {
          assert LetThrough(Gemma4, sends, checks, k);
          assert sends[..n][..k] == sends[..k];
        }
        WindowsWithinBudget(sends[..n], checks[..n], from);
      }
    }
  }

  /** A run that overflows the other model's budget: the largest request, twice at once. */
  lemma UnpacedRun() returns (sends: seq<Started>, checks: seq<real>)
    ensures PacedRun(FlashLite, sends, checks) && WindowTokens(sends, 0.0) == 60000
  {
    var one := Started(0.0, BudgetOf(FlashLite), false);
    sends, checks := [one, one], [0.0, 0.0];
    assert sends[..1] == [one] && [one][..0] == [];
    assert WindowTokens([one], 0.0) == 30000;
  }

  /** Every run of sends keeps every window within the model's budget exactly for the model
      that is paced. */
  lemma PacedExactly(model: Model)
    ensures (forall sends, checks :: PacedRun(model, sends, checks) ==> EveryWindowFits(model, sends)) <==> model == Gemma4
  {
    if model == Gemma4 {
      forall sends, checks | PacedRun(model, sends, checks) ensures EveryWindowFits(model, sends) {
        forall from: real ensures WindowTokens(sends, from) <= BudgetOf(model) { WindowsWithinBudget(sends, checks, from); }
      }
    } else {
      var sends, checks := UnpacedRun();
      assert !EveryWindowFits(model, sends);
    }
  }

  /** One coordinator's sends: each waits its turn if the model is paced, then starts. */
  class Pacer {
    const model: Model
    var sends: seq<Started>
    ghost var checks: seq<real>
    var clock: real

    ghost predicate Valid()
      reads this
    {
      PacedRun(model, sends, checks)
    }

    constructor (model: Model, clock: real)
      ensures Valid() && sends == [] && this.clock == clock && this.model == model
    {
      this.model := model;
      sends, checks, this.clock := [], [], clock;
    }

    /** Nothing is sent above the budget; otherwise the send waits its turn. */
    method SendBatch(tokens: nat, rejected: bool, delay: real, late: nat -> real) returns (sent: bool)
      requires Valid() && delay >= 0.0 && forall i :: late(i) >= 0.0
      modifies this
      ensures Valid() && clock >= old(clock)
      ensures sent <==> tokens <= if model == Gemma4 then 14500 else 30000
      ensures sent ==> sends == old(sends) + [Started(clock, tokens, rejected)]
      ensures !sent ==> sends == old(sends)
      ensures model == Gemma4 ==> EveryWindowFits(model, sends)
    {
      PacedExactly(Gemma4);
      if tokens > BudgetOf(model) { return false; }
      var now, turns := PacedWait(model, sends, tokens, BudgetOf(model), clock, late);
      ghost var before, looks := sends, checks;
      clock := now + delay;
      sends := sends + [Started(clock, tokens, rejected)];
      checks := checks + [now];
      forall k | 0 <= k < |sends| ensures LetThrough(model, sends, checks, k) {
        assert sends[..k] == before[..k];
        if k < |before| { assert LetThrough(model, before, looks, k); }
        else { assert before[..k] == before; }
      }
      sent := true;
    }
  }
}
