/** Joining schedules of the dispatch machine, and running one thread by itself. */
module Schedules {
  import opened DispatchProtocol

  lemma {:induction false} ExecConcat(s: State, a: seq<Action>, b: seq<Action>)
    ensures Exec(s, a + b) == Exec(Exec(s, a), b)
  {
    if b == [] { assert a + b == a; }
    else {
      var n := |b| - 1;
      assert (a + b)[..|a + b| - 1] == a + b[..n] && (a + b)[|a + b| - 1] == b[n];
      ExecConcat(s, a, b[..n]);
    }
  }

  predicate OnlyTicks(run: seq<Action>, t: Tid) {
    forall i :: 0 <= i < |run| ==> run[i].Tick? && run[i].t == t
  }

  /** Thread `t` alone can take the machine from `s` to `s'`. */
  ghost predicate Alone(s: State, s': State, t: Tid) {
    exists run :: OnlyTicks(run, t) && s' == Exec(s, run)
  }

  lemma NoTick(s: State, t: Tid)
    ensures Alone(s, s, t)
  {
    var run: seq<Action> := [];
    assert OnlyTicks(run, t) && Exec(s, run) == s;
  }

  lemma OneTick(s: State, t: Tid, reply: Reply)
    requires t in s.threads
    ensures Alone(s, TickThread(s, t, s.threads[t], reply), t)
  {
    var run := [Tick(t, reply)];
    assert run[..0] == [];
    assert Exec(s, run) == TickThread(s, t, s.threads[t], reply);
    assert OnlyTicks(run, t);
  }

  lemma AloneJoins(s: State, mid: State, s': State, t: Tid)
    requires Alone(s, mid, t) && Alone(mid, s', t)
    ensures Alone(s, s', t)
  {
    var a :| OnlyTicks(a, t) && mid == Exec(s, a);
    var b :| OnlyTicks(b, t) && s' == Exec(mid, b);
    ExecConcat(s, a, b);
    assert OnlyTicks(a + b, t);
  }

  lemma ExecOne(s: State, a: Action)
    ensures Exec(s, [a]) == Apply(s, a)
  {
  }

  lemma ExecSnoc(s: State, run: seq<Action>, a: Action)
    ensures Exec(s, run + [a]) == Apply(Exec(s, run), a)
  {
  }
}
