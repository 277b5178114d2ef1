/** The application state of types.ts, toggled by the overlay's button and
  * read every frame by every field to pick its morph target. */
module AppStates {

  datatype AppState = Scattered | TreeShape

  /** The button's click handler: SCATTERED becomes TREE_SHAPE and anything
    * else becomes SCATTERED; either way the state changes. */
  function Toggle(s: AppState): (r: AppState)
    ensures r != s
  {
    if s == Scattered then TreeShape else Scattered
  }

  /** The value a field's morph progress moves toward: 1 for the tree, 0 for
    * the scattered cloud. */
  function MorphTarget(s: AppState): (r: real)
    ensures r == 0.0 || r == 1.0
    ensures r == 1.0 <==> s == TreeShape
  {
    if s == TreeShape then 1.0 else 0.0
  }
}
