/** The two composition forms the workflows hand to their orchestration library:
    a branch over (predicate, step) pairs and a parallel fan-out over steps. The
    library itself is not part of this model, so the semantics below is an
    explicit assumption: a branch runs EVERY step whose predicate holds (not just
    the first), each on the same upstream value, and both forms collect the step
    outputs into a record keyed by step id. Execution is sequential here;
    concurrency, cancellation and schema validation are not modelled. */
module Engine {

  /** One `[predicate, step]` pair of a `.branch([...])` call. */
  datatype Route<!I, K> = Route(guard: I -> bool, target: K)

  /** The targets whose predicate holds for `x`, in declaration order. */
  function Selected<I, K(!new)>(routes: seq<Route<I, K>>, x: I): (ks: seq<K>)
    ensures |ks| <= |routes|
    ensures forall k :: k in ks <==>
      exists i :: 0 <= i < |routes| && routes[i].target == k && routes[i].guard(x)
  {
    if routes == [] then []
    else
      var rest := Selected(routes[1..], x);
      assert forall i :: 1 <= i < |routes| ==> routes[i] == routes[1..][i - 1];
      if routes[0].guard(x) then [routes[0].target] + rest else rest
  }

  /** The outputs of the steps `ids`, each run on the same input `x`, keyed by step id. */
  function Collect<I, K(==), O>(ids: seq<K>, step: (K, I) -> O, x: I): (m: map<K, O>)
    ensures m.Keys == set k | k in ids
    ensures forall k :: k in m ==> m[k] == step(k, x)
  {
    if ids == [] then map[]
    else Collect(ids[..|ids| - 1], step, x)[ids[|ids| - 1] := step(ids[|ids| - 1], x)]
  }

  /** Collecting a single step gives a one-entry record. */
  lemma CollectOne<I, K, O>(id: K, step: (K, I) -> O, x: I)
    ensures Collect([id], step, x) == map[id := step(id, x)]
  {
    assert [id][..0] == [];
  }

  /** `.branch(routes)`: every target whose predicate holds for `x` runs on `x`. */
  function Branch<I, K(==,!new), O>(routes: seq<Route<I, K>>, step: (K, I) -> O, x: I): (m: map<K, O>)
    ensures forall k :: k in m <==>
      exists i :: 0 <= i < |routes| && routes[i].target == k && routes[i].guard(x)
    ensures forall k :: k in m ==> m[k] == step(k, x)
  {
    Collect(Selected(routes, x), step, x)
  }

  /** `.parallel(ids)`: every step in `ids` runs on the same input `x`. */
  function Parallel<I, K(==,!new), O>(ids: seq<K>, step: (K, I) -> O, x: I): (m: map<K, O>)
    ensures forall k :: k in m <==> k in ids
    ensures forall k :: k in m ==> m[k] == step(k, x)
  {
    Collect(ids, step, x)
  }

  /** The branch's result holds exactly the targets whose predicate holds, each
      holding that step's output for the upstream value; if no predicate holds
      no step runs and the result is empty. */
  lemma BranchInclusion<I, K(!new), O>(routes: seq<Route<I, K>>, step: (K, I) -> O, x: I)
    ensures forall k :: k in Branch(routes, step, x) <==>
      exists i :: 0 <= i < |routes| && routes[i].target == k && routes[i].guard(x)
    ensures forall k :: k in Branch(routes, step, x) ==> Branch(routes, step, x)[k] == step(k, x)
    ensures (forall i :: 0 <= i < |routes| ==> !routes[i].guard(x)) ==> Branch(routes, step, x) == map[]
  {
    var m := Branch(routes, step, x);
    if forall i :: 0 <= i < |routes| ==> !routes[i].guard(x) {
      assert forall k :: k !in m;
    }
  }
}
