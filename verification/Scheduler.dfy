/** The wave scheduler of the executor: within one wave, the nodes whose dependencies
    are complete form a batch, the batch runs, and the rest is looked at again. */
module Scheduler {
  import opened Types

  type NodeIndex = map<Handle, Node>

  /** `collect` into a map: the last node with a name wins. */
  function IndexOf(nodes: seq<Node>): NodeIndex {
    if nodes == [] then map[]
    else IndexOf(nodes[..|nodes| - 1])[nodes[|nodes| - 1].name := nodes[|nodes| - 1]]
  }

  ghost predicate Known(index: NodeIndex, names: seq<Handle>) {
    forall n :: n in names ==> n in index
  }

  predicate Ready(index: NodeIndex, name: Handle, completed: set<Handle>)
    requires name in index
  {
    forall d :: d in index[name].dependencies ==> d in completed
  }

  function ReadyNames(index: NodeIndex, pending: seq<Handle>, completed: set<Handle>): (r: seq<Handle>)
    requires Known(index, pending)
    ensures forall n :: n in r <==> n in pending && Ready(index, n, completed)
  {
    if pending == [] then []
    else
      assert pending == [pending[0]] + pending[1..];
      var rest := ReadyNames(index, pending[1..], completed);
      if Ready(index, pending[0], completed) then [pending[0]] + rest else rest
  }

  /** `pending.retain(not in batch)`. */
  function Retain(pending: seq<Handle>, batch: seq<Handle>): (r: seq<Handle>)
    ensures forall n :: n in r <==> n in pending && n !in batch
    ensures |r| <= |pending|
  {
    if pending == [] then []
    else
      assert pending == [pending[0]] + pending[1..];
      var rest := Retain(pending[1..], batch);
      if pending[0] in batch then rest else [pending[0]] + rest
  }

  function Names(s: seq<Handle>): set<Handle> { set n | n in s }

  function Flatten(batches: seq<seq<Handle>>): seq<Handle> {
    if batches == [] then [] else batches[0] + Flatten(batches[1..])
  }

  /** What the loop does: the batches it ran, and what was left when no node was ready. */
  datatype Schedule = Schedule(batches: seq<seq<Handle>>, pending: seq<Handle>)

  function ScheduleWave(index: NodeIndex, pending: seq<Handle>, completed: set<Handle>): Schedule
    requires Known(index, pending)
    decreases |pending|
  {
    var ready := ReadyNames(index, pending, completed);
    if ready == [] then Schedule([], pending)
    else
      RetainShrinks(pending, ready);
      var rest := ScheduleWave(index, Retain(pending, ready), completed + Names(ready));
      Schedule([ready] + rest.batches, rest.pending)
  }

  lemma {:induction false} RetainShrinks(pending: seq<Handle>, batch: seq<Handle>)
    requires batch != [] && batch[0] in pending
    ensures |Retain(pending, batch)| < |pending|
  {
    assert pending == [pending[0]] + pending[1..];
    if pending[0] !in batch {
      assert batch[0] in pending[1..];
      RetainShrinks(pending[1..], batch);
    }
  }

  // ---------------------------------------------------------------------------
  // Every node exactly once

  lemma {:induction false} SplitByReadiness(index: NodeIndex, pending: seq<Handle>, completed: set<Handle>,
                                            ready: seq<Handle>)
    requires Known(index, pending)
    requires forall n :: n in pending ==> (n in ready <==> Ready(index, n, completed))
    ensures multiset(ReadyNames(index, pending, completed)) + multiset(Retain(pending, ready)) == multiset(pending)
  {
    if pending != [] {
      assert pending == [pending[0]] + pending[1..];
      SplitByReadiness(index, pending[1..], completed, ready);
    }
  }

  /** Nothing is run twice, dropped or invented. */
  lemma {:induction false} ScheduleConserves(index: NodeIndex, pending: seq<Handle>, completed: set<Handle>)
    requires Known(index, pending)
    ensures var s := ScheduleWave(index, pending, completed);
            multiset(Flatten(s.batches)) + multiset(s.pending) == multiset(pending)
    decreases |pending|
  {
    var ready := ReadyNames(index, pending, completed);
    if ready != [] {
      RetainShrinks(pending, ready);
      ScheduleConserves(index, Retain(pending, ready), completed + Names(ready));
      SplitByReadiness(index, pending, completed, ready);
    }
  }

  // ---------------------------------------------------------------------------
  // Dependencies first

  /** Every node of every batch finds its dependencies in what was complete before the
      wave and in the earlier batches. */
  ghost predicate DependenciesFirst(index: NodeIndex, batches: seq<seq<Handle>>, completed: set<Handle>) {
    forall k, n :: 0 <= k < |batches| && n in batches[k] ==>
                     n in index && Ready(index, n, completed + Names(Flatten(batches[..k])))
  }

  lemma {:induction false} FlattenSplit(a: seq<seq<Handle>>, b: seq<seq<Handle>>)
    ensures Flatten(a + b) == Flatten(a) + Flatten(b)
  {
    if a == [] {
      assert a + b == b;
    } else {
      assert (a + b)[1..] == a[1..] + b;
      FlattenSplit(a[1..], b);
    }
  }

  lemma FlattenAt(batches: seq<seq<Handle>>, k: nat)
    requires k < |batches|
    ensures Flatten(batches) == Flatten(batches[..k]) + batches[k] + Flatten(batches[k + 1..])
  {
    hide Flatten;
    var (a, x, b) := (batches[..k], batches[k], batches[k + 1..]);
    assert batches == a + [x] + b;
    FlattenSplit(a + [x], b);
    FlattenSplit(a, [x]);
    FlattenOne(x);
  }

  lemma FlattenOne(batch: seq<Handle>)
    ensures Flatten([batch]) == batch
  {
    assert [batch][1..] == [];
    assert batch + [] == batch;
  }

  lemma NamesSplit(a: seq<Handle>, b: seq<Handle>)
    ensures Names(a + b) == Names(a) + Names(b)
  {
  }

  lemma ConsDependenciesFirst(index: NodeIndex, batch: seq<Handle>, rest: seq<seq<Handle>>, completed: set<Handle>)
    requires forall n :: n in batch ==> n in index && Ready(index, n, completed)
    requires DependenciesFirst(index, rest, completed + Names(batch))
    ensures DependenciesFirst(index, [batch] + rest, completed)
  {
    var all := [batch] + rest;
    forall k, n | 0 <= k < |all| && n in all[k]
      ensures n in index && Ready(index, n, completed + Names(Flatten(all[..k])))
    {
      if k > 0 {
        assert all[..k] == [batch] + rest[..k - 1];
        assert Flatten(all[..k]) == batch + Flatten(rest[..k - 1]);
        NamesSplit(batch, Flatten(rest[..k - 1]));
        assert Ready(index, n, completed + Names(batch) + Names(Flatten(rest[..k - 1])));
      }
    }
  }

  lemma {:induction false} ScheduleOrders(index: NodeIndex, pending: seq<Handle>, completed: set<Handle>)
    requires Known(index, pending)
    ensures DependenciesFirst(index, ScheduleWave(index, pending, completed).batches, completed)
    decreases |pending|
  {
    var ready := ReadyNames(index, pending, completed);
    if ready != [] {
      RetainShrinks(pending, ready);
      var rest := ScheduleWave(index, Retain(pending, ready), completed + Names(ready));
      ScheduleOrders(index, Retain(pending, ready), completed + Names(ready));
      ConsDependenciesFirst(index, ready, rest.batches, completed);
    }
  }

  // ---------------------------------------------------------------------------
  // Exactly when a wave gets stuck

  /** A set of wave members that hold each other up: each misses a dependency that is
      in the set, or that this wave will never complete. */
  ghost predicate Blocked(index: NodeIndex, wave: set<Handle>, completed: set<Handle>, s: set<Handle>) {
    && s <= wave
    && forall n :: n in s ==>
         n in index && exists d :: d in index[n].dependencies && d !in completed && (d in s || d !in wave)
  }

  /** What is left when nothing is ready is the largest blocked set. */
  lemma {:induction false} PendingIsGreatestBlocked(
      index: NodeIndex, pending: seq<Handle>, completed: set<Handle>, wave: set<Handle>, start: set<Handle>)
    requires Known(index, pending)
    requires start <= completed && completed - start <= wave && wave - completed <= Names(pending)
    requires Names(pending) <= wave
    ensures var left := Names(ScheduleWave(index, pending, completed).pending);
            && Blocked(index, wave, start, left)
            && forall s :: Blocked(index, wave, start, s) && s <= Names(pending) && s !! (completed - start) ==>
                 s <= left
    decreases |pending|
  {
    var ready := ReadyNames(index, pending, completed);
    if ready == [] {
      var left := Names(pending);
      forall n | n in left
        ensures exists d :: d in index[n].dependencies && d !in start && (d in left || d !in wave)
      {
        assert n in pending && n !in ready;
        assert !Ready(index, n, completed);
        var d :| d in index[n].dependencies && d !in completed;
        assert d in left || d !in wave;
      }
    } else {
      var pending', completed' := Retain(pending, ready), completed + Names(ready);
      RetainShrinks(pending, ready);
      forall n | n in wave - completed' ensures n in Names(pending') {
        assert n in Names(pending);
      }
      PendingIsGreatestBlocked(index, pending', completed', wave, start);
      var left := Names(ScheduleWave(index, pending', completed').pending);
      forall s | Blocked(index, wave, start, s) && s <= Names(pending) && s !! (completed - start)
        ensures s <= left
      {
        forall n | n in s ensures n !in ready {
          var d :| d in index[n].dependencies && d !in start && (d in s || d !in wave);
          assert d !in completed;
        }
        assert s <= Names(pending');
        assert s !! (completed' - start);
      }
    }
  }

  /** The scheduling loop always ends; it completes the wave exactly when no non-empty
      set of members is blocked, and otherwise leaves the largest blocked set, each
      member of which has an uncompleted dependency. */
  lemma WaveCompletesIffUnblocked(index: NodeIndex, wave: seq<Handle>, completed: set<Handle>)
    requires Known(index, wave)
    ensures var s := ScheduleWave(index, wave, completed);
            && (s.pending == [] <==> forall b :: Blocked(index, Names(wave), completed, b) ==> b == {})
            && Blocked(index, Names(wave), completed, Names(s.pending))
            && (forall b :: Blocked(index, Names(wave), completed, b) ==> b <= Names(s.pending))
            && (forall n :: n in s.pending ==>
                  n in index && !Ready(index, n, completed + Names(Flatten(s.batches))))
  {
    var s := ScheduleWave(index, wave, completed);
    assert completed - completed == {};
    PendingIsGreatestBlocked(index, wave, completed, Names(wave), completed);
    assert forall b :: Blocked(index, Names(wave), completed, b) ==> b <= Names(s.pending);
    if s.pending != [] {
      assert s.pending[0] in Names(s.pending);
    }
    StuckIsNotReady(index, wave, completed);
  }

  lemma {:induction false} StuckIsNotReady(index: NodeIndex, pending: seq<Handle>, completed: set<Handle>)
    requires Known(index, pending)
    ensures var s := ScheduleWave(index, pending, completed);
            forall n :: n in s.pending ==> n in index && !Ready(index, n, completed + Names(Flatten(s.batches)))
    decreases |pending|
  {
    var ready := ReadyNames(index, pending, completed);
    if ready == [] {
      assert completed + Names(Flatten([])) == completed;
      forall n | n in pending ensures n in index && !Ready(index, n, completed) {
        assert n !in ready;
      }
    } else {
      RetainShrinks(pending, ready);
      var completed' := completed + Names(ready);
      var rest := ScheduleWave(index, Retain(pending, ready), completed');
      StuckIsNotReady(index, Retain(pending, ready), completed');
      var s := ScheduleWave(index, pending, completed);
      assert Flatten(s.batches) == ready + Flatten(rest.batches);
      NamesSplit(ready, Flatten(rest.batches));
      assert completed + Names(Flatten(s.batches)) == completed' + Names(Flatten(rest.batches));
    }
  }

  // ---------------------------------------------------------------------------
  // All waves in turn

  /** Waves run in order; the first stuck wave ends the run. */
  function ScheduleAll(index: NodeIndex, waves: seq<Wave>, completed: set<Handle>): Schedule
    requires forall w :: w in waves ==> Known(index, w.nodeNames)
  {
    if waves == [] then Schedule([], [])
    else
      var s := ScheduleWave(index, waves[0].nodeNames, completed);
      if s.pending != [] then s
      else
        var rest := ScheduleAll(index, waves[1..], completed + Names(Flatten(s.batches)));
        Schedule(s.batches + rest.batches, rest.pending)
  }

  lemma AppendDependenciesFirst(index: NodeIndex, a: seq<seq<Handle>>, b: seq<seq<Handle>>, completed: set<Handle>)
    requires DependenciesFirst(index, a, completed)
    requires DependenciesFirst(index, b, completed + Names(Flatten(a)))
    ensures DependenciesFirst(index, a + b, completed)
  {
    forall k, n | 0 <= k < |a + b| && n in (a + b)[k]
      ensures n in index && Ready(index, n, completed + Names(Flatten((a + b)[..k])))
    {
      if k < |a| {
        assert (a + b)[..k] == a[..k];
      } else {
        var j := k - |a|;
        assert (a + b)[..k] == a + b[..j];
        FlattenSplit(a, b[..j]);
        NamesSplit(Flatten(a), Flatten(b[..j]));
        assert Ready(index, n, completed + Names(Flatten(a)) + Names(Flatten(b[..j])));
      }
    }
  }

  lemma {:induction false} ScheduleAllOrders(index: NodeIndex, waves: seq<Wave>, completed: set<Handle>)
    requires forall w :: w in waves ==> Known(index, w.nodeNames)
    ensures DependenciesFirst(index, ScheduleAll(index, waves, completed).batches, completed)
    decreases waves
  {
    if waves != [] {
      var s := ScheduleWave(index, waves[0].nodeNames, completed);
      ScheduleOrders(index, waves[0].nodeNames, completed);
      if s.pending == [] {
        var completed' := completed + Names(Flatten(s.batches));
        ScheduleAllOrders(index, waves[1..], completed');
        AppendDependenciesFirst(index, s.batches, ScheduleAll(index, waves[1..], completed').batches, completed);
      }
    }
  }
}
