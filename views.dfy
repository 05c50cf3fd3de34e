/** The conditional in the page's `<section>`: which of four views is shown. */
module Views {
  import opened Wrappers
  import opened Search

  /** One grid card: the image at the meme's `url`, captioned with its `name`. */
  datatype Card = Card(image: string, caption: string)

  datatype View =
    | Loading
    | Failure(message: string)
    | Empty
    | Populated(cards: seq<Card>)

  /** `error ? ...`: JavaScript truthiness of a `null`-or-string cell. */
  predicate Shows(error: Option<string>) {
    error.Some? && error.value != ""
  }

  /** `filteredMemes.map(...)`: one card per meme, in order. */
  function Cards(shown: seq<Meme>): (cards: seq<Card>)
    ensures |cards| == |shown|
    ensures forall i :: 0 <= i < |shown| ==> cards[i] == Card(shown[i].url, shown[i].name)
  {
    if shown == [] then [] else [Card(shown[0].url, shown[0].name)] + Cards(shown[1..])
  }

  /** The view for the current cells; the list passed is the filtered one. */
  function SelectView(loading: bool, error: Option<string>, shown: seq<Meme>): (v: View)
    ensures v.Loading? <==> loading
    ensures v.Failure? <==> !loading && Shows(error)
    ensures v.Failure? ==> v.message == error.value
    ensures v.Empty? <==> !loading && !Shows(error) && shown == []
    ensures v.Populated? <==> !loading && !Shows(error) && shown != []
    ensures v.Populated? ==> v.cards == Cards(shown)
  {
    if loading then Loading
    else if Shows(error) then Failure(error.value)
    else if |shown| == 0 then Empty
    else Populated(Cards(shown))
  }

  /**
   * Loading and the error view depend on the cells alone: changing only the
   * list shown (a different query) either leaves the view as it is or moves
   * it between Empty and Populated.
   */
  lemma ListOnlyTogglesResults(loading: bool, error: Option<string>, shown1: seq<Meme>, shown2: seq<Meme>)
    ensures var v1, v2 := SelectView(loading, error, shown1), SelectView(loading, error, shown2);
      v1 == v2 || (IsResults(v1) && IsResults(v2))
  {
  }

  /** The view lists search results, possibly none. */
  predicate IsResults(v: View) {
    v.Empty? || v.Populated?
  }
}
