// Transform-handle tags of the selection transform control
// (src/features/BetterSelect.cpp).
module BetterSelect {
  const TAG_LEFT: int := 2
  const TAG_RIGHT: int := 3
  const TAG_TOP: int := 4
  const TAG_BOTTOM: int := 5
  const TAG_TOP_LEFT: int := 6
  const TAG_TOP_RIGHT: int := 7
  const TAG_BOTTOM_LEFT: int := 8
  const TAG_BOTTOM_RIGHT: int := 9

  /** `isHandleTag`: the tag lies between the left and bottom-right handle tags. */
  predicate IsHandleTag(tag: int)
  {
    TAG_LEFT <= tag <= TAG_BOTTOM_RIGHT
  }

  /**
   * `opposite`: the handle across the selection box. The switch puts
   * `default` on the same arm as `TAG_LEFT`, so any unknown tag yields `TAG_RIGHT`.
   */
  function Opposite(tag: int): (r: int)
  {
    if tag == TAG_RIGHT then TAG_LEFT
    else if tag == TAG_TOP then TAG_BOTTOM
    else if tag == TAG_BOTTOM then TAG_TOP
    else if tag == TAG_TOP_LEFT then TAG_BOTTOM_RIGHT
    else if tag == TAG_BOTTOM_RIGHT then TAG_TOP_LEFT
    else if tag == TAG_TOP_RIGHT then TAG_BOTTOM_LEFT
    else if tag == TAG_BOTTOM_LEFT then TAG_TOP_RIGHT
    else TAG_RIGHT  // TAG_LEFT and default
  }

  /** The handle tags are exactly the eight named constants. */
  lemma HandleTagsAreNamed(tag: int)
    ensures IsHandleTag(tag) <==>
      tag in {TAG_LEFT, TAG_RIGHT, TAG_TOP, TAG_BOTTOM, TAG_TOP_LEFT, TAG_TOP_RIGHT, TAG_BOTTOM_LEFT, TAG_BOTTOM_RIGHT}
  {
  }

  /** `opposite` pairs the sides and the corners: left/right, top/bottom and the two diagonals. */
  lemma OppositePairs()
    ensures Opposite(TAG_LEFT) == TAG_RIGHT && Opposite(TAG_RIGHT) == TAG_LEFT
    ensures Opposite(TAG_TOP) == TAG_BOTTOM && Opposite(TAG_BOTTOM) == TAG_TOP
    ensures Opposite(TAG_TOP_LEFT) == TAG_BOTTOM_RIGHT && Opposite(TAG_BOTTOM_RIGHT) == TAG_TOP_LEFT
    ensures Opposite(TAG_TOP_RIGHT) == TAG_BOTTOM_LEFT && Opposite(TAG_BOTTOM_LEFT) == TAG_TOP_RIGHT
  {
  }

  /** On handle tags `opposite` is an involution, stays among handle tags and moves every handle. */
  lemma OppositeInvolution(tag: int)
    requires IsHandleTag(tag)
    ensures IsHandleTag(Opposite(tag))
    ensures Opposite(Opposite(tag)) == tag
    ensures Opposite(tag) != tag
  {
  }

  /** A tag that is not a handle tag falls through `default` into the left case and returns the right handle. */
  lemma OppositeDefault(tag: int)
    requires !IsHandleTag(tag)
    ensures Opposite(tag) == TAG_RIGHT
    ensures Opposite(Opposite(tag)) == TAG_LEFT
  {
  }
}
