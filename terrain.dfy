/** The four terrain classes shared by both classifiers, in the fixed order
    tundra, forest, desert, ocean used by every score vector. */
module Terrain {

  datatype Option<+T> = None | Some(value: T)

  datatype Label = Tundra | Forest | Desert | Ocean {

    /** Position of the class in a score vector. */
    function Index(): (i: nat)
      ensures i < 4
    {
      match this
      case Tundra => 0
      case Forest => 1
      case Desert => 2
      case Ocean => 3
    }
  }

  /** The class at position `i` of a score vector. */
  function FromIndex(i: nat): (l: Label)
    requires i < 4
    ensures l.Index() == i
  {
    if i == 0 then Tundra
    else if i == 1 then Forest
    else if i == 2 then Desert
    else Ocean
  }

  /** Positions and classes are in one-to-one correspondence. */
  lemma FromIndexOfIndex(l: Label)
    ensures FromIndex(l.Index()) == l
  {
  }

  /** What a classifier returns: the predicted class and the four scores. */
  datatype Prediction = Prediction(terrain: Label, scores: seq<real>)

  /** Sum of the scores, in order. */
  function Sum(v: seq<real>): real
  {
    if v == [] then 0.0 else Sum(v[..|v| - 1]) + v[|v| - 1]
  }
}
