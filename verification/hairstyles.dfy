/**
 * The hairstyle screen: the fixed catalogue, selecting a card, which card is
 * marked as selected, and the continue guard.
 */
module Hairstyles {
  import opened JsRuntime
  import opened Store

  const ImageBase := "https://images.unsplash.com/"
  const ImageQuery := "?w=400&h=400&fit=crop&crop=face"

  /** The eight styles offered, in display order. */
  function Catalogue(): (c: seq<Hairstyle>)
    ensures |c| == 8
    ensures forall i :: 0 <= i < 8 ==> c[i].id == [DigitChar(i + 1)]
    ensures forall i, j :: 0 <= i < j < 8 ==> c[i].id != c[j].id
    ensures forall i :: 0 <= i < 8 ==> c[i].name != "" && c[i].description != ""
  {
    [
      Hairstyle("1", "Long Wavy", ImageBase + "photo-1594736797933-d0401ba2fe65" + ImageQuery, "Elegant long wavy hair"),
      Hairstyle("2", "Bob Cut", ImageBase + "photo-1580618672591-eb180b1a973f" + ImageQuery, "Classic bob hairstyle"),
      Hairstyle("3", "Pixie Cut", ImageBase + "photo-1616683693504-3ea7e9ad6fec" + ImageQuery, "Short and chic pixie"),
      Hairstyle("4", "Beach Waves", ImageBase + "photo-1595475038665-8de2a4b72bbf" + ImageQuery, "Natural beach waves"),
      Hairstyle("5", "Straight Long", ImageBase + "photo-1598300042247-d088f8ab3a91" + ImageQuery, "Sleek straight hair"),
      Hairstyle("6", "Curly Afro", ImageBase + "photo-1531123897727-8f129e1688ce" + ImageQuery, "Beautiful curly afro"),
      Hairstyle("7", "Side Bangs", ImageBase + "photo-1607990281513-2c110a25bd8c" + ImageQuery, "Stylish side bangs"),
      Hairstyle("8", "Updo Bun", ImageBase + "photo-1605462863863-10d9e47e15ee" + ImageQuery, "Elegant updo bun")
    ]
  }

  /** `selectedHairstyle?.id === hairstyle.id`: the card gets the selected style and check mark. */
  predicate IsSelectedCard(selected: Option<Hairstyle>, card: Hairstyle) {
    selected.Some? && selected.value.id == card.id
  }

  /** At most one card is marked, and after choosing card `k` it is exactly card `k`. */
  lemma AtMostOneCardSelected(selected: Option<Hairstyle>, i: nat, j: nat)
    requires i < 8 && j < 8
    ensures IsSelectedCard(selected, Catalogue()[i]) && IsSelectedCard(selected, Catalogue()[j]) ==> i == j
    ensures selected == Some(Catalogue()[j]) ==> (IsSelectedCard(selected, Catalogue()[i]) <==> i == j)
  {
    var c := Catalogue();
    if i != j {
      if i < j { assert c[i].id != c[j].id; } else { assert c[j].id != c[i].id; }
    }
  }

  /** No card is marked before a style is chosen. */
  lemma NoCardSelectedInitially(i: nat)
    requires i < 8
    ensures !IsSelectedCard(Initial.selectedHairstyle, Catalogue()[i])
  {
  }

  /** `handleSelectHairstyle`: the pressed entry replaces any earlier choice. */
  method HandleSelectHairstyle(store: HairstyleStore, h: Hairstyle)
    modifies store
    ensures store.State() == old(store.State()).WithSelectedHairstyle(h)
  {
    store.SetSelectedHairstyle(h);
  }

  /** `handleContinue`: moves on to the photo screen only once a style is chosen. */
  method HandleContinue(store: HairstyleStore) returns (proceed: bool)
    ensures proceed <==> store.selectedHairstyle.Some?
  {
    proceed := store.selectedHairstyle.Some?;
  }
}
