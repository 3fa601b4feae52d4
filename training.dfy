/** The bookkeeping of the training wrapper as values: the three per-split
    step counters and the per-split metric accumulators, with what a whole
    run of step and epoch-end calls does to them. */
module Training {
  import opened Common

  /** The `state` string handed to `_step` and `_epoch_end`. */
  datatype Split = Train | Val | Test {
    function Name(): (n: string)
      ensures n in ["train", "val", "test"]
    {
      match this
      case Train => "train"
      case Val => "val"
      case Test => "test"
    }

    /** The key of the split's metric in the `ModuleDict`s: `state + "_"`. */
    function Key(): (k: string)
      ensures k == Name() + "_"
    {
      Name() + "_"
    }
  }

  lemma KeysDistinct(s: Split, t: Split)
    ensures s.Key() == t.Key() <==> s == t
  {
    if s != t {
      assert s.Key()[0] != t.Key()[0] || s.Key()[1] != t.Key()[1];
    }
  }

  /** The `_step_train`, `_step_val` and `_step_test` fields. */
  datatype Counters = Counters(train: int, val: int, test: int) {
    function Of(s: Split): int {
      match s
      case Train => train
      case Val => val
      case Test => test
    }

    /** One `*_step` call of split `s`: its own counter goes up by one. */
    function Bump(s: Split): (c: Counters)
      ensures c.Of(s) == Of(s) + 1
      ensures forall t :: t != s ==> c.Of(t) == Of(t)
    {
      match s
      case Train => this.(train := train + 1)
      case Val => this.(val := val + 1)
      case Test => this.(test := test + 1)
    }
  }

  /** The counters after `__init__`. */
  const Initial: Counters := Counters(-1, -1, -1)

  /** How many of `calls` are step calls of split `s`. */
  function Count(calls: seq<Split>, s: Split): (n: nat)
    ensures n <= |calls|
  {
    if calls == [] then 0 else (if calls[0] == s then 1 else 0) + Count(calls[1..], s)
  }

  /** The counters after the step calls `calls`, in order. */
  function After(c: Counters, calls: seq<Split>): Counters
    decreases |calls|
  {
    if calls == [] then c else After(c.Bump(calls[0]), calls[1..])
  }

  /** The step ids handed to `_step` for split `s` during `calls`, in order:
      each call first bumps the counter, then passes its new value on. */
  function Ids(c: Counters, calls: seq<Split>, s: Split): seq<int>
    decreases |calls|
  {
    if calls == [] then []
    else
      var next := c.Bump(calls[0]);
      (if calls[0] == s then [next.Of(s)] else []) + Ids(next, calls[1..], s)
  }

  /** Each split's counter ends up raised by the number of its own calls. */
  lemma {:induction false} AfterCounts(c: Counters, calls: seq<Split>, s: Split)
    ensures After(c, calls).Of(s) == c.Of(s) + Count(calls, s)
    decreases |calls|
  {
    if calls != [] {
      AfterCounts(c.Bump(calls[0]), calls[1..], s);
    }
  }

  /** The ids of one split are consecutive, starting right after its counter. */
  lemma {:induction false} IdsConsecutive(c: Counters, calls: seq<Split>, s: Split)
    ensures |Ids(c, calls, s)| == Count(calls, s)
    ensures forall k :: 0 <= k < |Ids(c, calls, s)| ==> Ids(c, calls, s)[k] == c.Of(s) + 1 + k
    decreases |calls|
  {
    if calls != [] {
      var next := c.Bump(calls[0]);
      IdsConsecutive(next, calls[1..], s);
    }
  }

  /** From a fresh model the ids of every split are 0, 1, 2, ... and so are
      strictly increasing. */
  lemma IdsFromInitial(calls: seq<Split>, s: Split)
    ensures forall k :: 0 <= k < |Ids(Initial, calls, s)| ==> Ids(Initial, calls, s)[k] == k
    ensures forall j, k :: 0 <= j < k < |Ids(Initial, calls, s)| ==>
      Ids(Initial, calls, s)[j] < Ids(Initial, calls, s)[k]
  {
    IdsConsecutive(Initial, calls, s);
  }

  /** What a metric accumulator has been fed: one (pred, target) pair per
      `update` call. Its numeric value is not modelled. */
  datatype Observation = Observation(pred: Tensor, target: seq<int>)

  /** The `ModuleDict` of one metric: accumulated observations per key. */
  type Accumulators = map<string, seq<Observation>>

  /** The accumulators right after construction: one empty metric per split. */
  const Fresh: Accumulators := map["train_" := [], "val_" := [], "test_" := []]

  predicate WellKeyed(m: Accumulators) {
    forall s: Split :: s.Key() in m
  }

  lemma FreshWellKeyed()
    ensures WellKeyed(Fresh)
  {
    forall s: Split ensures s.Key() in Fresh {
      match s
      case Train => assert Train.Key() == "train_";
      case Val => assert Val.Key() == "val_";
      case Test => assert Test.Key() == "test_";
    }
  }

  /** `metric[state + "_"].update(pred, target)`: one more observation for
      split `s`, every other split untouched. */
  function Record(m: Accumulators, s: Split, o: Observation): (r: Accumulators)
    requires WellKeyed(m)
    ensures WellKeyed(r)
    ensures r[s.Key()] == m[s.Key()] + [o]
    ensures forall t: Split :: t != s ==> r[t.Key()] == m[t.Key()]
  {
    forall t: Split | t != s ensures t.Key() != s.Key() { KeysDistinct(s, t); }
    m[s.Key() := m[s.Key()] + [o]]
  }

  /** `metric[state + "_"].reset()`: split `s` empty, every other untouched. */
  function Reset(m: Accumulators, s: Split): (r: Accumulators)
    requires WellKeyed(m)
    ensures WellKeyed(r)
    ensures r[s.Key()] == []
    ensures forall t: Split :: t != s ==> r[t.Key()] == m[t.Key()]
  {
    forall t: Split | t != s ensures t.Key() != s.Key() { KeysDistinct(s, t); }
    m[s.Key() := []]
  }

  /** A call that touches the accumulators: a step of a split or its epoch end. */
  datatype Event = Step(split: Split, obs: Observation) | EpochEnd(split: Split)

  /** One call's effect on a metric dictionary. */
  function Apply(m: Accumulators, e: Event): (r: Accumulators)
    requires WellKeyed(m)
    ensures WellKeyed(r)
  {
    match e
    case Step(s, o) => Record(m, s, o)
    case EpochEnd(s) => Reset(m, s)
  }

  /** The observation an event contributes to split `s`, if any. */
  function Own(e: Event, s: Split): seq<Observation> {
    match e
    case Step(t, o) => if t == s then [o] else []
    case EpochEnd(_) => []
  }

  /** Any call other than the epoch end of `s` appends to `s` exactly what
      it contributes to `s`. */
  lemma ApplyAppends(m: Accumulators, e: Event, s: Split)
    requires WellKeyed(m)
    requires e != EpochEnd(s)
    ensures Apply(m, e)[s.Key()] == m[s.Key()] + Own(e, s)
  {
  }

  function Replay(m: Accumulators, events: seq<Event>): (r: Accumulators)
    requires WellKeyed(m)
    ensures WellKeyed(r)
    decreases |events|
  {
    if events == [] then m else Replay(Apply(m, events[0]), events[1..])
  }

  /** The observations of the steps of split `s` among `events`, in order. */
  function StepsOf(events: seq<Event>, s: Split): seq<Observation> {
    if events == [] then [] else Own(events[0], s) + StepsOf(events[1..], s)
  }

  /** Without an epoch end of `s`, its accumulator only grows, by exactly the
      observations of its own steps; other splits' events leave it alone. */
  lemma {:induction false} ReplayWithoutReset(m: Accumulators, events: seq<Event>, s: Split)
    requires WellKeyed(m)
    requires EpochEnd(s) !in events
    ensures Replay(m, events)[s.Key()] == m[s.Key()] + StepsOf(events, s)
    decreases |events|
  {
    if events != [] {
      assert events[0] in events;
      assert EpochEnd(s) !in events[1..] by {
        assert forall e :: e in events[1..] ==> e in events;
      }
      ApplyAppends(m, events[0], s);
      ReplayWithoutReset(Apply(m, events[0]), events[1..], s);
    }
  }

  /** After an epoch end of `s`, its accumulator holds only what the steps
      of `s` since then observed: nothing from an earlier epoch survives. */
  lemma {:induction false} ReplayAfterReset(m: Accumulators, before: seq<Event>, after: seq<Event>, s: Split)
    requires WellKeyed(m)
    requires EpochEnd(s) !in after
    ensures Replay(m, before + [EpochEnd(s)] + after)[s.Key()] == StepsOf(after, s)
    decreases |before|
  {
    if before == [] {
      assert before + [EpochEnd(s)] + after == [EpochEnd(s)] + after;
      ReplayWithoutReset(Reset(m, s), after, s);
    } else {
      assert (before + [EpochEnd(s)] + after)[1..] == before[1..] + [EpochEnd(s)] + after;
      ReplayAfterReset(Apply(m, before[0]), before[1..], after, s);
    }
  }
}
