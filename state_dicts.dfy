/** `VeryBasicModel.load_weights`: the pretrained entries a key filter
    admits override the model's own state dict, key by key. */
module StateDicts {
  import opened Common

  type StateDict = map<string, Tensor>

  /** The `filter` keyword argument; `None` stands for the default
      `lambda key: key in pretrained_weights`. */
  function Admits(filter: Option<string -> bool>, pretrained: StateDict, key: string): (b: bool)
    ensures filter.None? ==> (b <==> key in pretrained)
    ensures filter.Some? ==> b == filter.value(key)
  {
    match filter
    case None => key in pretrained
    case Some(f) => f(key)
  }

  /** The comprehension over `pretrained_weights.items()` keeping every
      entry whose key the filter admits. */
  function Admitted(pretrained: StateDict, filter: Option<string -> bool>): (a: StateDict)
    ensures forall k :: k in a <==> k in pretrained && Admits(filter, pretrained, k)
    ensures forall k :: k in a ==> a[k] == pretrained[k]
  {
    map k | k in pretrained && Admits(filter, pretrained, k) :: pretrained[k]
  }

  /** `init_weights.update(admitted)`: every own key stays, an admitted
      key takes the pretrained value, every other key keeps its own. */
  function Merge(init: StateDict, pretrained: StateDict, filter: Option<string -> bool>): (m: StateDict)
    ensures init.Keys <= m.Keys
    ensures forall k :: k in m <==> k in init || (k in pretrained && Admits(filter, pretrained, k))
    ensures forall k :: k in m ==>
      m[k] == if k in pretrained && Admits(filter, pretrained, k) then pretrained[k] else init[k]
    ensures filter.None? ==> m.Keys == init.Keys + pretrained.Keys
    ensures filter.None? ==> forall k :: k in pretrained ==> m[k] == pretrained[k]
  {
    init + Admitted(pretrained, filter)
  }

  /** What `load_state_dict` copies into the model: the merged value of
      each of the model's own keys. */
  function Loaded(own: StateDict, merged: StateDict): (l: StateDict)
    requires own.Keys <= merged.Keys
    ensures l.Keys == own.Keys
    ensures forall k :: k in l ==> l[k] == merged[k]
  {
    map k | k in own :: merged[k]
  }

  /** Merging twice with the same pretrained weights and filter gives the
      same state dict as merging once. */
  lemma MergeIdempotent(init: StateDict, pretrained: StateDict, filter: Option<string -> bool>)
    ensures Merge(Merge(init, pretrained, filter), pretrained, filter) == Merge(init, pretrained, filter)
  {
    var once := Merge(init, pretrained, filter);
    var twice := Merge(once, pretrained, filter);
    assert forall k :: k in twice <==> k in once;
    assert forall k :: k in twice ==> twice[k] == once[k];
  }
}
