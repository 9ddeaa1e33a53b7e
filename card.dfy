/**
 * The item card: which image URLs a card shows for the shiny flag and the
 * face it is turned to, the click that turns it, and the flag that records
 * that its image has loaded.
 */
module Card {
  import opened Wrappers
  import opened Fetch

  /** The key of the front image for the shiny flag. */
  function FrontKey(isShiny: bool): string
  {
    if isShiny then "frontShiny" else "frontPhoto"
  }

  /** The key of the back image for the shiny flag. */
  function BackKey(isShiny: bool): string
  {
    if isShiny then "backShiny" else "backPhoto"
  }

  /** `x ?? ""`. */
  function OrEmpty(s: Option<string>): string
  {
    s.GetOr("")
  }

  /** The two URLs a card holds: the one shown and the back one it preloads. */
  datatype Faces = Faces(photo: string, photoBack: string)

  /**
   * The image-URL effect: the shown URL is the front or back candidate of
   * the chosen variant, the preloaded one is always the back candidate, and
   * a missing candidate is "".
   */
  function SelectFaces(item: Item, isShiny: bool, isFront: bool): (r: Faces)
    ensures r.photoBack == OrEmpty(Field(item, BackKey(isShiny)))
    ensures isFront ==> r.photo == OrEmpty(Field(item, FrontKey(isShiny)))
    ensures !isFront ==> r.photo == r.photoBack
  {
    var front := Field(item, FrontKey(isShiny));
    var back := Field(item, BackKey(isShiny));
    Faces(OrEmpty(if isFront then front else back), OrEmpty(back))
  }

  /** The click rule: with no back URL nothing happens, otherwise the face turns. */
  function Flip(isFront: bool, photoBack: string): (r: bool)
    ensures photoBack == "" ==> r == isFront
    ensures photoBack != "" ==> r != isFront
  {
    if photoBack == "" then isFront else !isFront
  }

  /** Turning a card does not change its back URL, so a second click turns it back. */
  lemma {:induction false} FlipTwiceRestores(item: Item, isShiny: bool, isFront: bool)
    ensures var once := Flip(isFront, SelectFaces(item, isShiny, isFront).photoBack);
            Flip(once, SelectFaces(item, isShiny, once).photoBack) == isFront
  {
    var back := SelectFaces(item, isShiny, isFront).photoBack;
    var once := Flip(isFront, back);
    assert SelectFaces(item, isShiny, once).photoBack == back;
  }

  /** Every card of a published page shows a non-empty front image when shiny is off. */
  lemma PublishedFrontShown(url: Query.Url, api: Api, i: int)
    requires FetchCycle(url, api).Ok? && 0 <= i < |FetchCycle(url, api).value.results|
    ensures var item := FetchCycle(url, api).value.results[i];
            SelectFaces(item, false, true).photo == item["frontPhoto"] != ""
  {
  }

  /** Every card of the page a hook holds shows a non-empty front image when shiny is off. */
  lemma HookFrontShown(hook: FetchHook, i: int)
    requires hook.Valid() && 0 <= i < |hook.pokemonsData.results|
    ensures var item := hook.pokemonsData.results[i];
            SelectFaces(item, false, true).photo == item["frontPhoto"] != ""
  {
  }

  /** One card's state: its props, the face it shows, its two URLs and the loaded flag. */
  class ItemCard {
    var pokemon: Item
    var isShiny: bool
    var isFront: bool
    var photoUrl: string
    var photoBackUrl: string
    var imgIsLoaded: bool

    /** After each effect has run, the two URLs are those of the props and the face. */
    ghost predicate Valid()
      reads this
    {
      Faces(photoUrl, photoBackUrl) == SelectFaces(pokemon, isShiny, isFront)
    }

    /** Mounting: the front face, nothing loaded, the URLs set by the first run of the effect. */
    constructor (pokemon: Item, isShiny: bool)
      ensures Valid() && this.pokemon == pokemon && this.isShiny == isShiny
      ensures isFront && !imgIsLoaded
    {
      this.pokemon := pokemon;
      this.isShiny := isShiny;
      isFront := true;
      photoUrl := "";
      photoBackUrl := "";
      imgIsLoaded := false;
      new;
      SyncFaces();
    }

    /** The image-URL effect, run whenever the face, the shiny flag or the item changes. */
    method SyncFaces()
      modifies this`photoUrl, this`photoBackUrl
      ensures Valid()
    {
      var faces := SelectFaces(pokemon, isShiny, isFront);
      photoUrl := faces.photo;
      photoBackUrl := faces.photoBack;
    }

    /** A click on the card. */
    method Click()
      requires Valid()
      modifies this
      ensures Valid()
      ensures isFront == Flip(old(isFront), old(photoBackUrl))
      ensures photoBackUrl == old(photoBackUrl)
      ensures pokemon == old(pokemon) && isShiny == old(isShiny) && imgIsLoaded == old(imgIsLoaded)
    {
      if photoBackUrl == "" {
        return;
      }
      isFront := !isFront;
      SyncFaces();
    }

    /** The parent renders the card with new props; the face and the loaded flag stay. */
    method Rerender(pokemon: Item, isShiny: bool)
      modifies this
      ensures Valid() && this.pokemon == pokemon && this.isShiny == isShiny
      ensures isFront == old(isFront) && imgIsLoaded == old(imgIsLoaded)
    {
      this.pokemon := pokemon;
      this.isShiny := isShiny;
      SyncFaces();
    }

    /** The preloaded image reports that it has loaded. */
    method ImageLoaded()
      modifies this`imgIsLoaded
      ensures imgIsLoaded
    {
      imgIsLoaded := true;
    }
  }
}
