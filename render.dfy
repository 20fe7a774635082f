/** `createFighterCard` and `renderFighters`: the projection of the visible
    list onto the grid. Cards are abstract tokens holding the texts the
    markup interpolates. */
module Render {
  import opened Common
  import opened Fighters

  /** The image area: the photo (with a hidden placeholder for a failed
      load) or the placeholder alone. */
  datatype Picture = Photo(src: string) | Placeholder

  datatype Card = Card(picture: Picture, name: string, summary: string, wins: string, losses: string, draws: string)

  /** A card in the grid with its animation-delay index (the delay is
      `index * 0.1` seconds). */
  datatype Tile = Tile(delayIndex: nat, card: Card)

  /** The grid's cards and whether the "no results" notice is shown. */
  datatype Grid = Grid(tiles: seq<Tile>, noResults: bool)

  /** `${s}` in a template literal: a missing value prints as "undefined". */
  function Interpolate(s: Option<string>): string {
    s.GetOr("undefined")
  }

  /** `${n}` for an optional integer. */
  function InterpolateInt(n: Option<int>): string {
    if n.Some? then IntText(n.value) else "undefined"
  }

  /** The separator of the height-and-weight line. */
  const Separator := " \U{2022} "

  /** `createFighterCard(fighter)`. */
  function CreateFighterCard(f: Fighter): Card {
    Card(if TruthyText(f.image) then Photo(f.image.value) else Placeholder,
         Interpolate(f.name),
         Interpolate(f.height) + Separator + Interpolate(f.weight),
         InterpolateInt(f.wins), InterpolateInt(f.losses), InterpolateInt(f.draws))
  }

  /** The cards for `fs`, numbered from `start`. */
  function TilesFrom(fs: seq<Fighter>, start: nat): (r: seq<Tile>)
    ensures |r| == |fs|
    ensures forall i :: 0 <= i < |fs| ==> r[i] == Tile(start + i, CreateFighterCard(fs[i]))
  {
    if fs == [] then [] else [Tile(start, CreateFighterCard(fs[0]))] + TilesFrom(fs[1..], start + 1)
  }

  /** `renderFighters()` on the list `fs`: an empty list gives an empty grid
      with the "no results" notice; otherwise one card per fighter, in list
      order, card i with delay index i, and the notice hidden. */
  function RenderGrid(fs: seq<Fighter>): (g: Grid)
    ensures g.noResults <==> fs == []
    ensures |g.tiles| == |fs|
    ensures forall i :: 0 <= i < |fs| ==> g.tiles[i] == Tile(i, CreateFighterCard(fs[i]))
  {
    if fs == [] then Grid([], true) else Grid(TilesFrom(fs, 0), false)
  }

  /** The placeholder is shown exactly when `image` is falsy; otherwise the
      photo's source is `image`. */
  lemma CardPicture(f: Fighter)
    ensures CreateFighterCard(f).picture == Placeholder <==> !TruthyText(f.image)
    ensures TruthyText(f.image) ==> CreateFighterCard(f).picture == Photo(f.image.value)
  {
  }

  /** A card for a displayable record shows its name and its
      `height • weight` line without any "undefined". */
  lemma DisplayableCard(f: Fighter)
    requires Displayable(f)
    ensures CreateFighterCard(f).name == f.name.value
    ensures CreateFighterCard(f).summary == f.height.value + Separator + f.weight.value
  {
  }

  /** The asymmetry of the two mappings as the cards show it: a record
      without wins shows "0" after the full load but "undefined" after a
      search. */
  lemma MissingWinsOnCards(u: Units, f: Fighter)
    requires f.wins == None
    ensures CreateFighterCard(NormalizeLoaded(u, f)).wins == "0"
    ensures CreateFighterCard(NormalizeSearched(u, f)).wins == "undefined"
  {
    assert IntText(0) == "0";
  }
}
