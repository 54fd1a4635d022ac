/** Finite paths of the protocol from any state on. */
module Paths {
  import opened Domain
  import opened Protocol

  ghost predicate Path(c: Config, states: seq<State>, actions: seq<Action>) {
    && |states| == |actions| + 1
    && forall i :: 0 <= i < |actions| ==>
         Enabled(c, states[i], actions[i]) && states[i + 1] == Next(c, states[i], actions[i])
  }

  function Last(states: seq<State>): State
    requires |states| > 0
  {
    states[|states| - 1]
  }

  lemma StartPath(c: Config, s: State)
    ensures Path(c, [s], []) && Last([s]) == s
  {
  }

  lemma PathGrows(c: Config, states: seq<State>, actions: seq<Action>, a: Action, next: State)
    requires Path(c, states, actions) && Enabled(c, Last(states), a) && next == Next(c, Last(states), a)
    ensures Path(c, states + [next], actions + [a])
    ensures Last(states + [next]) == next && (states + [next])[0] == states[0]
  {
    hide Enabled, Next;
  }

  lemma PathsJoin(c: Config, states: seq<State>, actions: seq<Action>, states': seq<State>, actions': seq<Action>)
    requires Path(c, states, actions) && Path(c, states', actions') && Last(states) == states'[0]
    ensures Path(c, states + states'[1..], actions + actions')
    ensures Last(states + states'[1..]) == Last(states') && (states + states'[1..])[0] == states[0]
  {
    hide Enabled, Next;
    var all, done := states + states'[1..], actions + actions';
    forall i | 0 <= i < |done| ensures Enabled(c, all[i], done[i]) && all[i + 1] == Next(c, all[i], done[i]) {
      if i >= |actions| {
        var k := i - |actions|;
        assert done[i] == actions'[k] && all[i] == states'[k] && all[i + 1] == states'[k + 1];
      }
    }
  }

  lemma LastIs(states: seq<State>)
    requires |states| > 0
    ensures Last(states) == states[|states| - 1]
  {
  }

  lemma WorkIs(c: Config, s: State, w: nat, step: WorkerStep)
    requires WorkerEnabled(s, w, step)
    ensures Enabled(c, s, Work(w, step)) && Next(c, s, Work(w, step)) == WorkerNext(c, s, w, step)
  {
    hide WorkerEnabled, WorkerNext;
  }

  lemma PublisherIs(c: Config, s: State, p: nat, step: PublisherStep)
    requires PublisherEnabled(s, p, step)
    ensures Enabled(c, s, Publisher(p, step)) && Next(c, s, Publisher(p, step)) == PublisherNext(s, p, step)
  {
    hide PublisherEnabled, PublisherNext;
  }

  lemma SweepIs(c: Config, s: State, m: nat, step: SweepStep)
    requires SweepEnabled(c, s, m, step)
    ensures Enabled(c, s, Maintain(m, step)) && Next(c, s, Maintain(m, step)) == SweepNext(c, s, m, step)
  {
    hide SweepEnabled, SweepNext;
  }

  lemma QueueIs(c: Config, s: State, k: string, step: QueueStep)
    requires QueueEnabled(s, k, step)
    ensures Enabled(c, s, Queue(k, step)) && Next(c, s, Queue(k, step)) == QueueNext(s, k, step)
  {
    hide QueueEnabled, QueueNext;
  }
}
