/** What the other modules share. */
module Wrappers {

  datatype Option<+T> = None | Some(value: T)

  /** One caller's own steps, each after what everybody else did before it. */
  function Weave<T>(others: seq<seq<T>>, own: seq<T>): seq<T>
    requires |own| <= |others|
  {
    if own == [] then []
    else
      var n := |own| - 1;
      Weave(others, own[..n]) + others[n] + [own[n]]
  }

  lemma {:induction false} WeaveSnoc<T>(others: seq<seq<T>>, own: seq<T>, a: T)
    requires |own| < |others|
    ensures Weave(others, own + [a]) == Weave(others, own) + others[|own|] + [a]
  {
    assert (own + [a])[..|own|] == own;
  }

  /** A weave begins with the weave of the first own steps. */
  lemma {:induction false} WeaveSplit<T>(others: seq<seq<T>>, own: seq<T>, j: nat) returns (rest: seq<T>)
    requires j <= |own| <= |others|
    ensures Weave(others, own) == Weave(others, own[..j]) + rest
  {
    if j == |own| {
      rest := [];
      assert own[..j] == own;
    } else {
      var n := |own| - 1;
      rest := WeaveSplit(others, own[..n], j);
      assert own[..n][..j] == own[..j];
      rest := rest + (others[n] + [own[n]]);
    }
  }
}
