/**
 * Python's `random.choice(options)` with the random draw made a parameter:
 * `pick` is any natural number and selects `options[pick % |options|]`, so
 * every draw gives an element and every element can be drawn.
 */
module Choice {

  function Choose<T>(options: seq<T>, pick: nat): (r: T)
    requires |options| > 0
    ensures r in options
  {
    options[pick % |options|]
  }

  /** Every element can be drawn: position `i` is selected by the draw `i`. */
  lemma {:induction false} ChooseReaches<T>(options: seq<T>, i: nat)
    requires i < |options|
    ensures Choose(options, i) == options[i]
  {
    assert i % |options| == i;
  }
}
