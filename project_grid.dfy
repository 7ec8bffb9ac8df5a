/**
 * The home-page project grid: an empty-state message for no projects,
 * otherwise one card per project whose layout variant cycles through a
 * fixed pattern of six.
 */
module ProjectGrid {
  import opened Types

  datatype CardVariant = Minimal | Overlay | Magazine

  /** The layout pattern the grid repeats. */
  const Pattern: seq<CardVariant> := [Minimal, Overlay, Magazine, Overlay, Minimal, Magazine]

  const EmptyMessage: string := "No projects to display yet."

  /** `getVariant(index)`: the pattern entry at `index mod 6`. */
  function GetVariant(index: nat): (v: CardVariant)
    ensures v == Pattern[index % 6]
  {
    Pattern[index % |Pattern|]
  }

  datatype Card = Card(project: Project, variant: CardVariant)

  datatype GridView = EmptyState(message: string) | Cards(cards: seq<Card>)

  /** `projects.map((project, index) => card)`, with indices starting at `offset`. */
  function CardsFrom(ps: seq<Project>, offset: nat): (cs: seq<Card>)
    ensures |cs| == |ps|
    ensures forall i :: 0 <= i < |ps| ==> cs[i] == Card(ps[i], GetVariant(offset + i))
    decreases |ps|
  {
    if |ps| == 0 then []
    else [Card(ps[0], GetVariant(offset))] + CardsFrom(ps[1..], offset + 1)
  }

  /** The grid for a list of projects. */
  function Render(ps: seq<Project>): (v: GridView)
    ensures v.EmptyState? <==> |ps| == 0
    ensures v.EmptyState? ==> v.message == EmptyMessage
    ensures v.Cards? ==> |v.cards| == |ps|
    ensures v.Cards? ==> forall i :: 0 <= i < |ps| ==> v.cards[i].project == ps[i] && v.cards[i].variant == GetVariant(i)
  {
    if |ps| == 0 then EmptyState(EmptyMessage) else Cards(CardsFrom(ps, 0))
  }

  /** The variant sequence repeats with period six. */
  lemma {:induction false} VariantPeriodic(i: nat, k: nat)
    ensures GetVariant(i + 6 * k) == GetVariant(i)
  {
    assert (i + 6 * k) % 6 == i % 6;
  }

  /** Neighbouring cards never share a layout, across the wrap of the pattern too. */
  lemma NeighboursDiffer(i: nat)
    ensures GetVariant(i) != GetVariant(i + 1)
  {
    var r := i % 6;
    assert (i + 1) % 6 == if r == 5 then 0 else r + 1;
  }

  /** Rendering the first cards of a list is a prefix of rendering the whole list. */
  lemma RenderPrefix(ps: seq<Project>, qs: seq<Project>)
    requires |ps| > 0
    ensures Render(ps + qs).Cards? && Render(ps).Cards?
    ensures Render(ps).cards <= Render(ps + qs).cards
  {
    var whole := Render(ps + qs).cards;
    var part := Render(ps).cards;
    assert forall i :: 0 <= i < |ps| ==> (ps + qs)[i] == ps[i];
    assert part == whole[..|ps|];
  }
}
