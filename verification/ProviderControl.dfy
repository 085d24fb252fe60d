/** SectorProviderControl of scripts/dinaut_sector_match_scope.py: bounded slots, a stop
    latch and a persisted hold shared by the worker threads of one coordinator, over
    every interleaving, crash and restart. */
module ProviderControl {
  import opened Common

  type Tid = nat

  /** Where a thread stands in `guarded_post` or in `fail`. */
  datatype PC =
    | WaitSlot
    | InSlot           // inside `with self.slots`, before require_send
    | Cleared          // past require_send
    | Posting
    | MustFail         // about to call fail
    | Persisting       // stop is set, the mutex is held, the hold is not yet written
    | Leaving
    | Gone

  datatype Thread = Thread(pc: PC, holdsSlot: bool)

  /** `posts` counts provider sends.  `clearedAtStop`, `lateStarts` and `stoppedInside`
      record, for the current coordinator, who was past require_send when the latch was
      set, who started a send afterwards, and whether the thread that set it held a slot. */
  datatype State = State(
    running: bool, slots: nat, free: nat, stop: bool, replayOnly: bool, mutex: Option<Tid>,
    threads: map<Tid, Thread>, hold: bool, posts: nat,
    clearedAtStop: set<Tid>, lateStarts: set<Tid>, stoppedInside: bool)

  datatype Action =
    | Enter(t: Tid)                    // a worker calls the guarded post
    | Report(t: Tid)                   // a stage, a case or a signal calls fail
    | Acquire(t: Tid)
    | Require(t: Tid, owner: bool)     // require_send: one critical section
    | StartPost(t: Tid)
    | Reply(t: Tid, good: bool)        // 200, or a rejection or transport error
    | SetStop(t: Tid)
    | Persist(t: Tid)
    | Release(t: Tid)
    | Crash
    | Restart(slots: nat, replayOnly: bool)

  function At(s: State, t: Tid): PC { if t in s.threads then s.threads[t].pc else Gone }

  function Move(s: State, t: Tid, pc: PC): State
    requires t in s.threads
  {
    s.(threads := s.threads[t := s.threads[t].(pc := pc)])
  }

  function InPC(s: State, pc: PC): (r: set<Tid>)
    ensures forall t :: t in r <==> t in s.threads && s.threads[t].pc == pc
  {
    set t | t in s.threads && s.threads[t].pc == pc
  }

  function Holders(s: State): set<Tid> {
    set t | t in s.threads && s.threads[t].holdsSlot
  }

  /** Entering `fail`: the latch is set under the mutex, the hold file comes next. */
  function Latch(s: State, t: Tid): State
    requires t in s.threads
  {
    Move(s, t, Persisting).(
      stop := true, mutex := Some(t),
      clearedAtStop := if s.stop then s.clearedAtStop else InPC(s, Cleared),
      stoppedInside := if s.stop then s.stoppedInside else s.threads[t].holdsSlot)
  }

  function Apply(s: State, a: Action): State {
    match a
    case Enter(t) => if t in s.threads || !s.running then s else s.(threads := s.threads[t := Thread(WaitSlot, false)])
    case Report(t) => if t in s.threads || !s.running then s else s.(threads := s.threads[t := Thread(MustFail, false)])
    case Acquire(t) =>
      if At(s, t) == WaitSlot && s.free > 0
      then s.(free := s.free - 1, threads := s.threads[t := Thread(InSlot, true)]) else s
    case Require(t, owner) =>
      if At(s, t) != InSlot || s.mutex.Some? then s
      else if s.stop || s.replayOnly then Move(s, t, Leaving)
      else if owner then Move(s, t, Cleared)
      else Latch(s, t)
    case StartPost(t) =>
      if At(s, t) != Cleared then s
      else Move(s, t, Posting).(posts := s.posts + 1, lateStarts := if s.stop then s.lateStarts + {t} else s.lateStarts)
    case Reply(t, good) => if At(s, t) != Posting then s else Move(s, t, if good then Leaving else MustFail)
    case SetStop(t) => if At(s, t) != MustFail || s.mutex.Some? then s else Latch(s, t)
    case Persist(t) =>
      if At(s, t) != Persisting || s.mutex != Some(t) then s else Move(s, t, Leaving).(mutex := None, hold := true)
    case Release(t) =>
      if At(s, t) != Leaving then s
      else s.(free := if s.threads[t].holdsSlot then s.free + 1 else s.free, threads := s.threads[t := Thread(Gone, false)])
    case Crash => s.(running := false, threads := map[], mutex := None)
    case Restart(n, replay) =>
      if s.running || !(1 <= n <= 2) then s
      else s.(running := true, threads := map[], slots := n, free := n, stop := s.hold, replayOnly := replay, mutex := None,
              clearedAtStop := {}, lateStarts := {}, stoppedInside := false)
  }

  function Exec(s: State, run: seq<Action>): State {
    if run == [] then s else Apply(Exec(s, run[..|run| - 1]), run[|run| - 1])
  }

  /** A folder before any coordinator has run on it. */
  const FIRST := State(false, 0, 0, false, false, None, map[], false, 0, {}, {}, false)

  ghost predicate SlotsHeld(s: State) {
    && (forall t :: t in s.threads && s.threads[t].pc in {InSlot, Cleared, Posting} ==> s.threads[t].holdsSlot)
    && (forall t :: t in s.threads && s.threads[t].pc in {WaitSlot, Gone} ==> !s.threads[t].holdsSlot)
    && (if s.running then s.free + |Holders(s)| == s.slots else s.threads == map[])
  }

  ghost predicate LateBounded(s: State) {
    && (s.stop ==> InPC(s, Cleared) <= s.clearedAtStop - s.lateStarts)
    && s.lateStarts <= s.clearedAtStop
    && (!s.stop ==> s.clearedAtStop == {} && s.lateStarts == {} && !s.stoppedInside)
    && |s.clearedAtStop| + (if s.stoppedInside then 1 else 0) <= s.slots
  }

  ghost predicate Inv(s: State) { SlotsHeld(s) && LateBounded(s) }

  /** What changing one thread does to the number of slot holders. */
  lemma HoldersMove(s: State, s': State, t: Tid)
    requires t in s'.threads && s'.threads == s.threads[t := s'.threads[t]]
    ensures
      var held := t in s.threads && s.threads[t].holdsSlot;
      |Holders(s')| == |Holders(s)| - (if held then 1 else 0) + (if s'.threads[t].holdsSlot then 1 else 0)
  {
    var rest := Holders(s) - {t};
    assert Holders(s) == rest || Holders(s) == rest + {t};
    assert Holders(s') == rest || Holders(s') == rest + {t};
  }

  lemma Subset<T>(a: set<T>, b: set<T>)
    requires a <= b
    ensures |a| <= |b|
  {
    if a != {} {
      var x :| x in a;
      Subset(a - {x}, b - {x});
    }
  }

  /** Whoever sets the latch leaves at most the other slots to cleared threads. */
  lemma StopBound(s: State, t: Tid)
    requires SlotsHeld(s) && s.running && t in s.threads && s.threads[t].pc != Cleared
    ensures |InPC(s, Cleared)| + (if s.threads[t].holdsSlot then 1 else 0) <= s.slots
  {
    var cleared := InPC(s, Cleared);
    assert cleared <= Holders(s);
    if s.threads[t].holdsSlot {
      assert t !in cleared && cleared + {t} <= Holders(s);
      Subset(cleared + {t}, Holders(s));
    } else {
      Subset(cleared, Holders(s));
    }
  }

  function Subject(a: Action): Option<Tid> {
    if a.Crash? || a.Restart? then None else Some(a.t)
  }

  /** A thread takes a slot when it gets past the semaphore and returns it when it leaves. */
  lemma SubjectSlots(s: State, a: Action)
    requires SlotsHeld(s) && Subject(a).Some? && Apply(s, a) != s
    ensures
      var s' := Apply(s, a);
      var before := a.t in s.threads && s.threads[a.t].holdsSlot;
      && s.running && s'.running && s'.slots == s.slots && a.t in s'.threads
      && s'.free + (if s'.threads[a.t].holdsSlot then 1 else 0) == s.free + (if before then 1 else 0)
      && (s'.threads[a.t].pc in {InSlot, Cleared, Posting} ==> s'.threads[a.t].holdsSlot)
      && (s'.threads[a.t].pc in {WaitSlot, Gone} ==> !s'.threads[a.t].holdsSlot)
  {
    hide Holders;
    match a
    case Enter(t) =>
    case Report(t) =>
    case Acquire(t) =>
    case Require(t, owner) =>
    case StartPost(t) =>
    case Reply(t, good) =>
    case SetStop(t) =>
    case Persist(t) =>
    case Release(t) =>
    case Crash =>
    case Restart(n, replay) =>
  }

  lemma ApplyKeepsSlots(s: State, a: Action)
    requires SlotsHeld(s)
    ensures SlotsHeld(Apply(s, a))
  {
    var s' := Apply(s, a);
    if Subject(a).None? {
      assert s'.threads == map[] || s' == s;
      if s'.threads == map[] { assert Holders(s') == {}; }
    } else if s' != s {
      ThreadEffect(s, a);
      SubjectSlots(s, a);
      HoldersMove(s, s', a.t);
      hide Apply, Holders;
    }
  }

  /** A latch once set stays as it was set; one not set leaves its history empty. */
  lemma LatchStays(s: State, a: Action)
    requires Subject(a).Some?
    ensures
      var s' := Apply(s, a);
      && s'.slots == s.slots && (s.stop ==> s'.stop)
      && (s.stop == s'.stop ==> s'.clearedAtStop == s.clearedAtStop && s'.stoppedInside == s.stoppedInside)
  {
    match a
    case Enter(t) =>
    case Report(t) =>
    case Acquire(t) =>
    case Require(t, owner) =>
    case StartPost(t) =>
    case Reply(t, good) =>
    case SetStop(t) =>
    case Persist(t) =>
    case Release(t) =>
    case Crash =>
    case Restart(n, replay) =>
  }

  /** Setting it is one thread's doing, and that thread was not cleared. */
  lemma LatchSets(s: State, a: Action)
    requires Subject(a).Some? && !s.stop && Apply(s, a).stop
    ensures a.t in s.threads && Apply(s, a) == Latch(s, a.t) && At(s, a.t) != Cleared
  {
  }

  /** A late start is that of a cleared thread, which then is not cleared any more. */
  lemma LateStartEffect(s: State, a: Action)
    requires Subject(a).Some?
    ensures
      var s' := Apply(s, a);
      || s'.lateStarts == s.lateStarts
      || (s.stop && s'.lateStarts == s.lateStarts + {a.t} && At(s, a.t) == Cleared && At(s', a.t) == Posting)
  {
    match a
    case Enter(t) =>
    case Report(t) =>
    case Acquire(t) =>
    case Require(t, owner) =>
    case StartPost(t) =>
    case Reply(t, good) =>
    case SetStop(t) =>
    case Persist(t) =>
    case Release(t) =>
    case Crash =>
    case Restart(n, replay) =>
  }

  /** One action moves one thread, and clears it only while the latch is not set. */
  lemma ThreadEffect(s: State, a: Action)
    requires Subject(a).Some?
    ensures
      var s' := Apply(s, a);
      && (s' == s || (a.t in s'.threads && s'.threads == s.threads[a.t := s'.threads[a.t]]))
      && (At(s', a.t) == Cleared ==> At(s, a.t) == Cleared || (!s.stop && !s'.stop))
  {
    match a
    case Enter(t) =>
    case Report(t) =>
    case Acquire(t) =>
    case Require(t, owner) =>
    case StartPost(t) =>
    case Reply(t, good) =>
    case SetStop(t) =>
    case Persist(t) =>
    case Release(t) =>
    case Crash =>
    case Restart(n, replay) =>
  }

  lemma ClearedEffect(s: State, a: Action)
    requires Subject(a).Some?
    ensures InPC(Apply(s, a), Cleared) <= InPC(s, Cleared) + if s.stop then {} else {a.t}
    ensures Apply(s, a).stop && !s.stop ==> InPC(Apply(s, a), Cleared) <= InPC(s, Cleared)
  {
    ThreadEffect(s, a);
    hide Apply;
  }

  lemma NobodyLate(s: State, a: Action)
    requires Inv(s) && Subject(a).None?
    ensures LateBounded(Apply(s, a))
  {
  }

  /** What an action of one thread may do to the history of the latch keeps it bounded. */
  lemma SubjectKeepsLate(s: State, a: Action)
    requires Inv(s) && Subject(a).Some? && !(Apply(s, a).stop && !s.stop)
    ensures LateBounded(Apply(s, a))
  {
    LatchStays(s, a);
    LateStartEffect(s, a);
    ClearedEffect(s, a);
    hide Apply, SlotsHeld;
  }

  lemma SettingKeepsLate(s: State, a: Action)
    requires Inv(s) && Subject(a).Some? && Apply(s, a).stop && !s.stop
    ensures LateBounded(Apply(s, a))
  {
    LatchSets(s, a);
    StopBound(s, a.t);
    hide Apply, SlotsHeld;
  }

  lemma ApplyKeepsLate(s: State, a: Action)
    requires Inv(s)
    ensures LateBounded(Apply(s, a))
  {
    hide Apply, Inv, LateBounded;
    if Subject(a).None? {
      NobodyLate(s, a);
    } else if Apply(s, a).stop && !s.stop {
      SettingKeepsLate(s, a);
    } else {
      SubjectKeepsLate(s, a);
    }
  }

  lemma {:induction false} ExecKeepsInv(s: State, run: seq<Action>)
    requires Inv(s)
    ensures Inv(Exec(s, run))
  {
    if run != [] {
      ExecKeepsInv(s, run[..|run| - 1]);
      ApplyKeepsSlots(Exec(s, run[..|run| - 1]), run[|run| - 1]);
      ApplyKeepsLate(Exec(s, run[..|run| - 1]), run[|run| - 1]);
    }
  }

  /** In every schedule, sends in flight never exceed the slots. */
  lemma InFlightWithinSlots(run: seq<Action>)
    ensures |InPC(Exec(FIRST, run), Posting)| <= Exec(FIRST, run).slots <= 2
  {
    ExecKeepsInv(FIRST, run);
    SlotsBounded(run);
    var s := Exec(FIRST, run);
    Subset(InPC(s, Posting), Holders(s));
  }

  lemma SlotsStep(s: State, a: Action)
    requires s.slots <= 2
    ensures Apply(s, a).slots <= 2
  {
    match a
    case Enter(t) =>
    case Report(t) =>
    case Acquire(t) =>
    case Require(t, owner) =>
    case StartPost(t) =>
    case Reply(t, good) =>
    case SetStop(t) =>
    case Persist(t) =>
    case Release(t) =>
    case Crash =>
    case Restart(n, replay) =>
  }

  lemma {:induction false} SlotsBounded(run: seq<Action>)
    ensures Exec(FIRST, run).slots <= 2
  {
    hide Apply;
    if run != [] {
      SlotsBounded(run[..|run| - 1]);
      SlotsStep(Exec(FIRST, run[..|run| - 1]), run[|run| - 1]);
    }
  }

  /** Sends that start after the latch is set come only from threads that were already past
      require_send, each at most once, so at most one per slot; when the thread that set the
      latch held a slot itself, at most one fewer. */
  lemma LateStartsWithinSlots(run: seq<Action>)
    ensures
      var s := Exec(FIRST, run);
      && s.lateStarts <= s.clearedAtStop
      && |s.lateStarts| + (if s.stoppedInside then 1 else 0) <= s.slots
  {
    ExecKeepsInv(FIRST, run);
    var s := Exec(FIRST, run);
    Subset(s.lateStarts, s.clearedAtStop);
  }

  /** `posts` moves only with a recorded start: before the latch, or late. */
  lemma StartsAreCounted(s: State, a: Action)
    requires Inv(s)
    ensures
      var s' := Apply(s, a);
      s'.posts != s.posts ==>
        && s'.posts == s.posts + 1 && a.StartPost?
        && (s.stop ==> a.t in s.clearedAtStop && a.t !in s.lateStarts && s'.lateStarts == s.lateStarts + {a.t})
  {
  }

  /** The coordinator lives through the run. */
  predicate NoCrash(run: seq<Action>) { forall i :: 0 <= i < |run| ==> !run[i].Crash? }

  lemma LateStep(s: State, a: Action)
    requires Inv(s) && s.running && s.stop && !a.Crash?
    ensures
      var s' := Apply(s, a);
      && s'.running && s'.stop && s'.slots == s.slots && s'.stoppedInside == s.stoppedInside
      && s'.posts - s.posts == |s'.lateStarts| - |s.lateStarts|
  {
    StartsAreCounted(s, a);
    LateUnlessPost(s, a);
  }

  lemma LateUnlessPost(s: State, a: Action)
    requires s.running && s.stop && !a.Crash?
    ensures
      var s' := Apply(s, a);
      && s'.running && s'.stop && s'.slots == s.slots && s'.stoppedInside == s.stoppedInside
      && (s'.posts == s.posts ==> s'.lateStarts == s.lateStarts)
  {
  }

  lemma {:induction false} LateRun(s: State, run: seq<Action>)
    requires Inv(s) && s.running && s.stop && NoCrash(run)
    ensures
      var s' := Exec(s, run);
      && s'.running && s'.stop && s'.slots == s.slots && s'.stoppedInside == s.stoppedInside
      && s'.posts - s.posts == |s'.lateStarts| - |s.lateStarts|
  {
    hide Apply, Inv;
    if run != [] {
      LateRun(s, run[..|run| - 1]);
      ExecKeepsInv(s, run[..|run| - 1]);
      LateStep(Exec(s, run[..|run| - 1]), run[|run| - 1]);
    }
  }

  /** Whatever the threads do once the latch is set, their coordinator sends at most once
      more per slot, and once less when a slot holder set it. */
  lemma LatePostsWithinSlots(before: seq<Action>, after: seq<Action>)
    requires Exec(FIRST, before).running && Exec(FIRST, before).stop && NoCrash(after)
    ensures
      var s, s' := Exec(FIRST, before), Exec(FIRST, before + after);
      s'.posts + (if s.stoppedInside then 1 else 0) <= s.posts + s.slots
  {
    var s := Exec(FIRST, before);
    ExecKeepsInv(FIRST, before);
    ExecConcat(FIRST, before, after);
    LateStartsWithinSlots(before + after);
    hide Exec, Inv;
    LateRun(s, after);
  }

  /** Nobody is past require_send and nobody can get past it. */
  ghost predicate Silenced(s: State) {
    && (if s.running then s.stop || s.replayOnly else s.threads == map[])
    && (forall t :: t in s.threads ==> s.threads[t].pc != Cleared)
  }

  predicate OnlyReplays(run: seq<Action>) {
    forall i :: 0 <= i < |run| && run[i].Restart? ==> run[i].replayOnly
  }

  lemma SilencedStep(s: State, a: Action)
    requires Silenced(s) && (s.hold || (a.Restart? ==> a.replayOnly))
    ensures Silenced(Apply(s, a)) && Apply(s, a).posts == s.posts && (s.hold ==> Apply(s, a).hold)
  {
  }

  lemma {:induction false} SilencedStays(s: State, run: seq<Action>)
    requires Silenced(s) && (s.hold || OnlyReplays(run))
    ensures Silenced(Exec(s, run)) && Exec(s, run).posts == s.posts && (s.hold ==> Exec(s, run).hold)
  {
    if run != [] {
      SilencedStays(s, run[..|run| - 1]);
      SilencedStep(Exec(s, run[..|run| - 1]), run[|run| - 1]);
    }
  }

  /** Once the hold file exists and its coordinator is gone, no restart of any kind ever
      sends again. */
  lemma HoldIsForever(before: seq<Action>, after: seq<Action>)
    requires Exec(FIRST, before).hold && !Exec(FIRST, before).running
    ensures Exec(FIRST, before + after).hold && Exec(FIRST, before + after).posts == Exec(FIRST, before).posts
  {
    ExecKeepsInv(FIRST, before);
    SilencedStays(Exec(FIRST, before), after);
    ExecConcat(FIRST, before, after);
  }

  /** Replay-only coordinators never send, hold or no hold. */
  lemma ReplayNeverSends(before: seq<Action>, after: seq<Action>)
    requires !Exec(FIRST, before).running && OnlyReplays(after)
    ensures Exec(FIRST, before + after).posts == Exec(FIRST, before).posts
  {
    ExecKeepsInv(FIRST, before);
    SilencedStays(Exec(FIRST, before), after);
    ExecConcat(FIRST, before, after);
  }

  lemma NoRun(s: State)
    ensures Exec(s, []) == s
  {
  }

  lemma {:induction false} ExecConcat(s: State, a: seq<Action>, b: seq<Action>)
    ensures Exec(s, a + b) == Exec(Exec(s, a), b)
  {
    if b == [] { assert a + b == a; }
    else {
      assert (a + b)[..|a + b| - 1] == a + b[..|b| - 1];
      ExecConcat(s, a, b[..|b| - 1]);
    }
  }

  // ----- The object ----------------------------------------------------------------

  datatype Reason = CoordinatorLost | TransportUncertain | HttpRejected | StageFailed | OperatorStop

  datatype Answer = Raised | Status(code: int)

  predicate OnlyBy(run: seq<Action>, t: Tid) {
    forall i :: 0 <= i < |run| ==> Subject(run[i]) == Some(t)
  }

  /** `world` is the machine above; every method is some run of one thread in it. */
  class SectorProviderControl {
    const slots: nat
    const replayOnly: bool
    var stop: bool
    var free: nat
    var holdFile: Option<Reason>
    var posts: nat
    ghost const earlier: nat
    ghost var world: State

    ghost predicate Valid()
      reads this
    {
      && world.running && world.mutex == None && Inv(world)
      && world.slots == slots && world.free == free && world.stop == stop && world.replayOnly == replayOnly
      && world.posts == earlier + posts && world.hold == holdFile.Some?
    }

    constructor (slots: nat, replayOnly: bool, saved: Option<Reason>, ghost before: State)
      requires 1 <= slots <= 2 && !before.running && Inv(before) && before.hold == saved.Some?
      ensures Valid() && world == Apply(before, Restart(slots, replayOnly))
      ensures stop == saved.Some? && holdFile == saved && free == slots
      ensures this.slots == slots && this.replayOnly == replayOnly && posts == 0 && earlier == before.posts
    {
      this.slots := slots;
      this.replayOnly := replayOnly;
      stop := saved.Some?;
      free := slots;
      holdFile := saved;
      posts := 0;
      earlier := before.posts;
      world := Apply(before, Restart(slots, replayOnly));
      new;
      ApplyKeepsSlots(before, Restart(slots, replayOnly));
      ApplyKeepsLate(before, Restart(slots, replayOnly));
    }

    /** One action of the machine. */
    ghost method Step(a: Action, before: State, run: seq<Action>) returns (longer: seq<Action>)
      requires Inv(world) && Inv(before) && Subject(a).Some? && OnlyBy(run, a.t) && world == Exec(before, run)
      modifies this`world
      ensures world == Apply(old(world), a) && Inv(world)
      ensures longer == run + [a] && OnlyBy(longer, a.t) && world == Exec(before, longer)
    {
      ApplyKeepsSlots(world, a);
      ApplyKeepsLate(world, a);
      longer := run + [a];
      assert longer[..|longer| - 1] == run;
      world := Apply(world, a);
    }

    /** Entering the mutex with the latch, then the hold file on disk. */
    ghost method StepFail(t: Tid, before: State, run: seq<Action>) returns (longer: seq<Action>)
      requires Inv(world) && Inv(before) && OnlyBy(run, t) && world == Exec(before, run)
      requires At(world, t) == MustFail && world.mutex == None
      modifies this`world
      ensures Inv(world) && OnlyBy(longer, t) && world == Exec(before, longer)
      ensures world.running == old(world).running && world.slots == old(world).slots && world.free == old(world).free
      ensures world.replayOnly == old(world).replayOnly && world.posts == old(world).posts
      ensures world.stop && world.hold && world.mutex == None
      ensures t in world.threads && world.threads[t] == Thread(Leaving, old(world).threads[t].holdsSlot)
    {
      hide Exec, Inv;
      longer := Step(SetStop(t), before, run);
      longer := Step(Persist(t), before, longer);
    }

    /** A whole call up to and including the wait for a slot. */
    ghost method StepIn(t: Tid) returns (run: seq<Action>)
      requires Inv(world) && t !in world.threads && world.running && world.free > 0
      modifies this`world
      ensures Inv(world) && OnlyBy(run, t) && world == Exec(old(world), run)
      ensures world == old(world).(free := old(world).free - 1, threads := old(world).threads[t := Thread(InSlot, true)])
    {
      hide Exec, Inv;
      ghost var before := world;
      NoRun(before);
      run := Step(Enter(t), before, []);
      run := Step(Acquire(t), before, run);
      assert world.threads == before.threads[t := Thread(InSlot, true)];
    }

    ghost method StepPost(good: bool, t: Tid, before: State, run: seq<Action>) returns (longer: seq<Action>)
      requires Inv(world) && Inv(before) && OnlyBy(run, t) && world == Exec(before, run)
      requires At(world, t) == Cleared && !world.stop
      modifies this`world
      ensures Inv(world) && OnlyBy(longer, t) && world == Exec(before, longer)
      ensures world.running == old(world).running && world.slots == old(world).slots && world.free == old(world).free
      ensures world.replayOnly == old(world).replayOnly && world.posts == old(world).posts + 1
      ensures !world.stop && world.hold == old(world).hold && world.mutex == old(world).mutex
      ensures t in world.threads && world.threads[t] == Thread(if good then Leaving else MustFail, old(world).threads[t].holdsSlot)
    {
      hide Exec, Inv;
      longer := Step(StartPost(t), before, run);
      longer := Step(Reply(t, good), before, longer);
    }

    /** fail: the latch, then the hold file unless one is there already. */
    method Fail(reason: Reason, ghost t: Tid, ghost before: State, ghost run: seq<Action>) returns (ghost done: seq<Action>)
      requires Valid() && At(world, t) == MustFail && Inv(before) && OnlyBy(run, t) && world == Exec(before, run)
      modifies this`stop, this`holdFile, this`world
      ensures Valid() && OnlyBy(done, t) && world == Exec(before, done)
      ensures stop && holdFile == Some(if old(holdFile).Some? then old(holdFile).value else reason)
      ensures At(world, t) == Leaving && world.threads[t].holdsSlot == old(world).threads[t].holdsSlot
    {
      hide Exec, Inv, Apply;
      stop := true;
      if holdFile.None? { holdFile := Some(reason); }
      done := StepFail(t, before, run);
    }

    /** A check that clears the thread or turns it away without a latch. */
    ghost method StepCheck(owner: bool, t: Tid, before: State, run: seq<Action>) returns (longer: seq<Action>)
      requires Inv(world) && Inv(before) && OnlyBy(run, t) && world == Exec(before, run)
      requires At(world, t) == InSlot && world.mutex == None && (owner || world.stop || world.replayOnly)
      modifies this`world
      ensures Inv(world) && OnlyBy(longer, t) && world == Exec(before, longer)
      ensures world == Move(old(world), t, if old(world).stop || old(world).replayOnly then Leaving else Cleared)
    {
      hide Exec, Inv, InPC, Holders, Latch;
      longer := Step(Require(t, owner), before, run);
    }

    /** A check that finds the ownership lost: the latch, then the hold file. */
    ghost method StepLost(t: Tid, before: State, run: seq<Action>) returns (longer: seq<Action>)
      requires Inv(world) && Inv(before) && OnlyBy(run, t) && world == Exec(before, run)
      requires At(world, t) == InSlot && world.mutex == None && !world.stop && !world.replayOnly
      modifies this`world
      ensures Inv(world) && OnlyBy(longer, t) && world == Exec(before, longer)
      ensures world == Move(Latch(old(world), t), t, Leaving).(mutex := None, hold := true)
    {
      hide Exec, Inv, InPC, Holders;
      longer := Step(Require(t, false), before, run);
      longer := Step(Persist(t), before, longer);
    }

    /** require_send.  Only a fresh failure of ownership latches and persists a hold. */
    method RequireSend(owner: bool, ghost t: Tid, ghost before: State, ghost run: seq<Action>)
      returns (clear: bool, ghost done: seq<Action>)
      requires Valid() && At(world, t) == InSlot && Inv(before) && OnlyBy(run, t) && world == Exec(before, run)
      modifies this`stop, this`holdFile, this`world
      ensures Valid() && OnlyBy(done, t) && world == Exec(before, done)
      ensures clear <==> !old(stop) && !replayOnly && owner
      ensures At(world, t) == if clear then Cleared else Leaving
      ensures t in world.threads && world.threads[t].holdsSlot
      ensures
        var lost := !old(stop) && !replayOnly && !owner;
        && stop == (old(stop) || lost)
        && holdFile == if lost && old(holdFile).None? then Some(CoordinatorLost) else old(holdFile)
    {
      assert world.threads[t].holdsSlot;
      hide Exec, Inv, InPC, Holders, Apply;
      if stop || replayOnly {
        done := StepCheck(owner, t, before, run);
        return false, done;
      }
      if owner {
        done := StepCheck(owner, t, before, run);
        return true, done;
      }
      stop := true;
      if holdFile.None? { holdFile := Some(CoordinatorLost); }
      done := StepLost(t, before, run);
      clear := false;
    }

    /** Leaving the `with self.slots` block. */
    ghost method StepOut(t: Tid, before: State, run: seq<Action>) returns (longer: seq<Action>)
      requires Inv(world) && Inv(before) && OnlyBy(run, t) && world == Exec(before, run)
      requires t in world.threads && world.threads[t] == Thread(Leaving, true)
      modifies this`world
      ensures Inv(world) && OnlyBy(longer, t) && world == Exec(before, longer)
      ensures world == old(world).(free := old(world).free + 1, threads := old(world).threads[t := Thread(Gone, false)])
    {
      hide Exec, Inv, InPC, Holders, Latch;
      longer := Step(Release(t), before, run);
    }

    /** guarded_post once a slot is free. */
    method GuardedPost(owner: bool, answer: Answer, ghost t: Tid) returns (sent: bool, ghost run: seq<Action>)
      requires Valid() && free > 0 && t !in world.threads
      modifies this`stop, this`free, this`holdFile, this`posts, this`world
      ensures Valid() && OnlyBy(run, t) && world == Exec(old(world), run)
      ensures sent <==> !old(stop) && !replayOnly && owner
      ensures posts == old(posts) + (if sent then 1 else 0) && free == old(free)
      ensures stop <==> old(stop) || (!replayOnly && !(owner && answer == Status(200)))
      ensures old(holdFile).Some? ==> holdFile == old(holdFile)
      ensures holdFile.Some? <==> old(holdFile).Some? || (stop && !old(stop))
      ensures old(holdFile).None? && holdFile.Some? ==>
                holdFile.value == if !owner then CoordinatorLost else if answer.Raised? then TransportUncertain else HttpRejected
    {
      hide Exec, Inv, Apply, InPC, Holders;
      ghost var before := world;
      free := free - 1;
      run := StepIn(t);
      sent, run := RequireSend(owner, t, before, run);
      if sent {
        posts := posts + 1;
        run := StepPost(answer == Status(200), t, before, run);
        if answer != Status(200) {
          run := Fail(if answer.Raised? then TransportUncertain else HttpRejected, t, before, run);
        }
      }
      free := free + 1;
      run := StepOut(t, before, run);
    }
  }

  /** Opening the folder: one or two slots, or no control at all. */
  method OpenControl(slots: int, replayOnly: bool, saved: Option<Reason>, ghost before: State)
    returns (control: Option<SectorProviderControl>)
    requires !before.running && Inv(before) && before.hold == saved.Some?
    ensures control.Some? <==> 1 <= slots <= 2
    ensures control.Some? ==>
              && fresh(control.value) && control.value.Valid()
              && control.value.world == Apply(before, Restart(slots, replayOnly))
              && control.value.stop == saved.Some? && control.value.posts == 0
  {
    if !(1 <= slots <= 2) { return None; }
    var made := new SectorProviderControl(slots, replayOnly, saved, before);
    return Some(made);
  }
}
