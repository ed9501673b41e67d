/**
 * The favourites toggle shared by the products page, the showcase and the
 * recommendation panel: copy the set of favourite ids, then delete the id if
 * it is there and add it otherwise.
 */
module Favorites {

  /** The set after toggling `id`. */
  function Toggle(favorites: set<int>, id: int): (r: set<int>)
    ensures id in r <==> id !in favorites
    ensures forall other | other != id :: other in r <==> other in favorites
  {
    if id in favorites then favorites - {id} else favorites + {id}
  }

  /** Toggling the same id twice gives back the original set. */
  lemma ToggleTwice(favorites: set<int>, id: int)
    ensures Toggle(Toggle(favorites, id), id) == favorites
  {
    var once := Toggle(favorites, id);
    assert forall x :: x in Toggle(once, id) <==> x in favorites;
  }

  /** Toggles of different ids can be applied in either order. */
  lemma ToggleCommutes(favorites: set<int>, a: int, b: int)
    ensures Toggle(Toggle(favorites, a), b) == Toggle(Toggle(favorites, b), a)
  {
    assert forall x :: x in Toggle(Toggle(favorites, a), b) <==> x in Toggle(Toggle(favorites, b), a);
  }
}
