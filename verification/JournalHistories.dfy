/** Whole histories of the dispatch machine on one folder, restarts included, are what the
    transport calls a root history; so its two-send bound holds of every case the machine
    leaves behind. */
module JournalHistories {
  import opened Common
  import opened DispatchProtocol
  import opened Schedules
  import opened JournalCalls
  import T = JevTransport

  /** One use of the folder: a call run any number of steps, and the restart that ends it,
      which drops and tears what it likes of what was not synced. */
  datatype Use = Use(call: Call, ticks: seq<Action>, lost: set<Path>, torn: set<Path>)

  function Schedule(u: Use): seq<Action> { [Start(0, u.call)] + (u.ticks + [PowerLoss(u.lost, u.torn)]) }

  function History(uses: seq<Use>): seq<Action> {
    if uses == [] then [] else History(uses[..|uses| - 1]) + Schedule(uses[|uses| - 1])
  }

  predicate Of(u: Use, key: Key) { u.call.key == key && OnlyTicks(u.ticks, 0) }

  const FRESH := State(map[], [], map[], [], [])

  function Sends(posts: seq<Post>): seq<T.Dispatch> {
    if posts == [] then []
    else
      var last := posts[|posts| - 1];
      Sends(posts[..|posts| - 1]) + [T.Dispatch(T.Root, last.payload, last.reply)]
  }

  /** The case as the transport sees a machine that has just restarted. */
  function CaseOf(s: State, key: Key): T.Case {
    T.Case(View(s.disk, key), T.Child(map[], T.Missing, T.Missing, T.Missing), Sends(s.posts))
  }

  lemma PostsGrow(s: State, t: Tid, reply: Reply)
    requires t in s.threads
    ensures s.posts <= TickThread(s, t, s.threads[t], reply).posts
  {
  }

  lemma {:induction false} TicksGrow(s: State, t: Tid, run: seq<Action>)
    requires Settled(s.disk) && AtStart(s, t) && OnlyTicks(run, t)
    ensures s.posts <= Exec(s, run).posts
  {
    if run != [] {
      var n := |run| - 1;
      TicksGrow(s, t, run[..n]);
      TicksKeep(s, t, run[..n]);
      hide TickThread;
      PostsGrow(Exec(s, run[..n]), t, run[n].reply);
    }
  }

  /** The states inside one use. */
  lemma UseStates(s: State, u: Use)
    requires s.threads == map[]
    ensures
      var begun := Apply(s, Start(0, u.call));
      var ended := Exec(begun, u.ticks);
      && Exec(s, Schedule(u)) == ended.(threads := map[], disk := Reboot(ended.disk, u.lost, u.torn))
      && begun.disk == s.disk && begun.posts == s.posts && AtStart(begun, 0) && begun.threads[0].call == u.call
  {
    ExecConcat(s, [Start(0, u.call)], u.ticks + [PowerLoss(u.lost, u.torn)]);
    ExecOne(s, Start(0, u.call));
    ExecSnoc(Apply(s, Start(0, u.call)), u.ticks, PowerLoss(u.lost, u.torn));
  }

  /** A call posts nothing or one request of its own. */
  lemma PostsOnce(s: State, s': State, t: Tid)
    requires Inv(s, s', t) && s.posts <= s'.posts
    ensures s'.posts == s.posts || (s'.posts == s.posts + [s'.posts[|s.posts|]] && NewSend(s, s', s.threads[t].call))
  {
  }

  /** One use of the folder is one journal call of the transport's history. */
  lemma UseIsAttempt(s: State, u: Use, key: Key) returns (a: T.Attempt)
    requires s.threads == map[] && Settled(s.disk) && Of(u, key)
    ensures
      var s' := Exec(s, Schedule(u));
      && s'.threads == map[] && Settled(s'.disk)
      && T.JournalAttempt(View(s.disk, key), u.call.payload, a) && a.files == View(s'.disk, key)
      && Sends(s'.posts) == Sends(s.posts) + T.SendOf(T.Root, u.call.payload, a)
  {
    var begun := Apply(s, Start(0, u.call));
    UseStates(s, u);
    hide Apply, Schedule, Inv, NewSend, T.JournalAttempt;
    var ended := Exec(begun, u.ticks);
    var ending := LostPower(u.lost, u.torn);
    CallIsAttempt(begun, 0, u.ticks, ending);
    TicksKeep(begun, 0, u.ticks);
    TicksGrow(begun, 0, u.ticks);
    hide Exec;
    PostsOnce(begun, ended, 0);
    a := AttemptOf(begun, ended, 0, ending);
    if ended.posts != s.posts { OneMorePost(begun, ended, u.call); }
  }

  lemma OneMorePost(s: State, s': State, call: Call)
    requires NewSend(s, s', call) && s'.posts == s.posts + [s'.posts[|s.posts|]]
    ensures Sends(s'.posts) == Sends(s.posts) + [T.Dispatch(T.Root, call.payload, s'.posts[|s.posts|].reply)]
  {
    assert s'.posts[..|s'.posts| - 1] == s.posts;
  }

  /** Every machine history of a folder is a root history with the files and the sends it
      left. */
  lemma {:induction false} MachineHistory(uses: seq<Use>, key: Key) returns (calls: seq<T.RootCall>)
    requires forall i :: 0 <= i < |uses| ==> Of(uses[i], key)
    ensures
      var s := Exec(FRESH, History(uses));
      s.threads == map[] && Settled(s.disk) && T.RootHistory(calls, CaseOf(s, key))
  {
    if uses == [] {
      calls := [];
      assert View(FRESH.disk, key) == map[];
      assert Exec(FRESH, []) == FRESH;
    } else {
      var n := |uses| - 1;
      var before := MachineHistory(uses[..n], key);
      var s := Exec(FRESH, History(uses[..n]));
      ExecConcat(FRESH, History(uses[..n]), Schedule(uses[n]));
      hide Exec, Schedule, Settled, T.JournalAttempt, View, Sends;
      var a := UseIsAttempt(s, uses[n], key);
      var call := T.RootCall(uses[n].call.payload, a);
      calls := before + [call];
      assert calls[..|calls| - 1] == before && calls[|calls| - 1] == call;
      var c := CaseOf(s, key);
      assert CaseOf(Exec(FRESH, History(uses)), key) == c.(root := a.files, sends := c.sends + T.RootSend(call));
    }
  }

  /** From whatever the machine left, any later use of the transport keeps the two-send
      bound. */
  lemma MachinePaysSafely(uses: seq<Use>, key: Key, run: seq<T.Episode>, i: nat)
    requires (forall j :: 0 <= j < |uses| ==> Of(uses[j], key)) && i <= |run|
    requires T.TransportRun(CaseOf(Exec(FRESH, History(uses)), key), run)
    ensures T.PaidSafely(T.CaseBefore(CaseOf(Exec(FRESH, History(uses)), key), run, i))
  {
    var calls := MachineHistory(uses, key);
    T.TransportPaysSafely(calls, CaseOf(Exec(FRESH, History(uses)), key), run, i);
  }
}
