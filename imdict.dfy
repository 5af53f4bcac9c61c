/** `imdict`: a dictionary whose seven overridden mutators raise `TypeError`. */
module ImmutableDict {
  import opened PyValues

  const ImmutableMessage := "This object is immutable"

  /** The seven dictionary mutators `imdict` overrides, with their arguments. */
  datatype Mutator =
    | SetItem(key: string, value: PyValue)          // d[key] = value
    | DelItem(key: string)                          // del d[key]
    | Clear                                         // d.clear()
    | Update(other: map<string, PyValue>)           // d.update(other)
    | SetDefault(key: string, default: PyValue)     // d.setdefault(key, default)
    | Pop(key: string)                              // d.pop(key)
    | PopItem                                       // d.popitem()

  /** One mutator call on an imdict holding `items`: the contents afterwards
      and the outcome of the call. Whichever of the seven overridden
      mutators is called, with whatever arguments, it raises and nothing
      changes. */
  function Apply(items: map<string, PyValue>, op: Mutator): (r: (map<string, PyValue>, Outcome<PyValue>))
    ensures r.0 == items
    ensures r.1.Raised? && r.1.exc == TypeError(ImmutableMessage)
  {
    (items, Raised(TypeError(ImmutableMessage)))
  }

  /** A caller tries the overridden mutators `ops` one after another,
      catching each exception: the final contents and the outcomes, in order. */
  function Replay(items: map<string, PyValue>, ops: seq<Mutator>): (map<string, PyValue>, seq<Outcome<PyValue>>)
    decreases |ops|
  {
    if ops == [] then (items, [])
    else
      var first := Apply(items, ops[0]);
      var rest := Replay(first.0, ops[1..]);
      (rest.0, [first.1] + rest.1)
  }

  /** No sequence of calls to the overridden mutators changes an imdict,
      and every call raises the immutability `TypeError`. */
  lemma {:induction false} ReplayLeavesContents(items: map<string, PyValue>, ops: seq<Mutator>)
    ensures Replay(items, ops).0 == items
    ensures |Replay(items, ops).1| == |ops|
    ensures forall i :: 0 <= i < |ops| ==> Replay(items, ops).1[i] == Raised(TypeError(ImmutableMessage))
    decreases |ops|
  {
    if ops != [] {
      ReplayLeavesContents(items, ops[1..]);
    }
  }
}
