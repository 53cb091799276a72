/**
 * The home screen's state: the active category pill and the set of liked
 * card ids, seeded from the gallery's `liked` flags and flipped per card.
 */
module Home {

  /** A gallery card (its star rating is not modelled). */
  datatype Card = Card(id: string, title: string, image: string, liked: bool)

  const ImageBase := "https://storage.googleapis.com/uxpilot-auth.appspot.com/"

  /** `GALLERY`; a card without `liked` is not liked. */
  function Gallery(): seq<Card> {
    [
      Card("bob", "Classic Bob", ImageBase + "caf64ff634-85b3d6d14184ab5b5420.png", false),
      Card("messy", "Messy Bun", ImageBase + "f19fbec6a2-a8286716688b1efc3e0d.png", false),
      Card("braid", "French Braid", ImageBase + "fdc4d1163d-f845c06cbf8e6d217cdc.png", false),
      Card("layered", "Layered Cut", ImageBase + "34dec0899e-0ae9c003e72f0c865ff8.png", false),
      Card("afro", "Natural Afro", ImageBase + "721e0d9859-38395ace31b83273673e.png", true),
      Card("ponytail", "High Ponytail", ImageBase + "7b3ed9f120-e8f99aadc54ffacd9a94.png", false),
      Card("shag", "Modern Shag", ImageBase + "95fc1f0ab0-83aa427db37050c868f3.png", false),
      Card("topknot", "Top Knot", ImageBase + "6a01180e69-6cf9671b72cb85de0a7b.png", false)
    ]
  }

  /** `cards.filter(g => g.liked).map(g => g.id)`, collected into a set. */
  function LikedIds(cards: seq<Card>): (r: set<string>)
    ensures forall id :: id in r <==> exists i :: 0 <= i < |cards| && cards[i].liked && cards[i].id == id
  {
    if cards == [] then {}
    else
      var rest := LikedIds(cards[1..]);
      assert forall i :: 1 <= i < |cards| ==> cards[i] == cards[1..][i - 1];
      if cards[0].liked then {cards[0].id} + rest else rest
  }

  /** Of the gallery, only the fifth card ("afro") carries `liked: true`. */
  lemma OnlyAfroFlagged()
    ensures Gallery()[4].liked && Gallery()[4].id == "afro"
    ensures forall i :: 0 <= i < |Gallery()| && i != 4 ==> !Gallery()[i].liked
  {
  }

  /** The liked set the screen starts with. */
  lemma InitialLikedIsAfro()
    ensures LikedIds(Gallery()) == {"afro"}
  {
    OnlyAfroFlagged();
  }

  /** The updater given to `setLikedIds`: a copy of `prev` with `id`'s membership flipped. */
  function ToggleLike(prev: set<string>, id: string): (next: set<string>)
    ensures id in next <==> id !in prev
    ensures forall other :: other != id ==> (other in next <==> other in prev)
  {
    if id in prev then prev - {id} else prev + {id}
  }

  lemma ToggleLikeTwice(prev: set<string>, id: string)
    ensures ToggleLike(ToggleLike(prev, id), id) == prev
  {
  }

  /** `filteredGallery`: the category does not filter anything yet. */
  function FilteredGallery(active: string): (r: seq<Card>)
    ensures r == Gallery()
  {
    Gallery()
  }

  class HomeScreen {
    var active: string
    var likedIds: set<string>

    constructor ()
      ensures active == "all"
      ensures likedIds == LikedIds(Gallery())
    {
      active := "all";
      likedIds := LikedIds(Gallery());
    }

    /** A category pill was pressed. */
    method SetActive(category: string)
      modifies this
      ensures active == category && likedIds == old(likedIds)
    {
      active := category;
    }

    /** `handleToggleLike` */
    method HandleToggleLike(id: string)
      modifies this
      ensures likedIds == ToggleLike(old(likedIds), id)
      ensures active == old(active)
    {
      likedIds := ToggleLike(likedIds, id);
    }
  }
}
