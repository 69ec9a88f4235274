/**
 * The home page: a carousel over the five poses that a timer advances
 * every five seconds and a row of chips that jump to a pose, plus the
 * pose colour table and the choice of 3D model for a pose name.
 */
module Home {

  /** The poses of the carousel, in order. */
  const YogaPoses: seq<string> := ["downdog", "goddess", "plank", "tree", "warrior2"]

  /** The image shown for each carousel position. */
  const ImageList: seq<string> := [
    "/images/pngegg (7).png",
    "/images/pngegg (10).png",
    "/images/pngegg (11).png",
    "/images/pngegg (12).png",
    "/images/pngegg (13).png"
  ]

  /** The colour of each known pose. */
  const PoseColors: map<string, string> := map[
    "downdog" := "#8e44ad",
    "goddess" := "#9b59b6",
    "plank" := "#3498db",
    "tree" := "#2ecc71",
    "warrior2" := "#e74c3c"
  ]

  /** The colour of a pose the table does not know. */
  const DefaultColor: string := "#FDC9BA"

  /** Every carousel position has both a pose and an image. */
  lemma ListsAligned()
    ensures |ImageList| == |YogaPoses| == 5
    ensures PoseColors.Keys == set i | 0 <= i < |YogaPoses| :: YogaPoses[i]
  {
    var keys := set i | 0 <= i < |YogaPoses| :: YogaPoses[i];
    assert YogaPoses[0] in keys && YogaPoses[1] in keys && YogaPoses[2] in keys;
    assert YogaPoses[3] in keys && YogaPoses[4] in keys;
  }

  /** The position after one timer tick: `(prev + 1) % YOGA_POSES.length`. */
  function NextIndex(prev: nat): (next: nat)
    ensures next < |YogaPoses|
    ensures prev < |YogaPoses| - 1 ==> next == prev + 1
    ensures prev == |YogaPoses| - 1 ==> next == 0
  {
    (prev + 1) % |YogaPoses|
  }

  /** The position after `n` ticks from `start`. */
  function AfterTicks(start: nat, n: nat): (pos: nat)
    ensures n == 0 ==> pos == start
    ensures start < |YogaPoses| || n > 0 ==> pos < |YogaPoses|
  {
    if n == 0 then start else NextIndex(AfterTicks(start, n - 1))
  }

  /** After `n` ticks the position has moved `n` steps round the circle. */
  lemma {:induction false} AfterTicksIsRotation(start: nat, n: nat)
    requires start < |YogaPoses|
    ensures AfterTicks(start, n) == (start + n) % |YogaPoses|
    ensures AfterTicks(start, n) < |YogaPoses|
  {
    if n > 0 {
      AfterTicksIsRotation(start, n - 1);
      ModStep(start + n - 1);
    }
  }

  /** Stepping a residue modulo 5 is stepping the number. */
  lemma ModStep(p: nat)
    ensures (p % 5 + 1) % 5 == (p + 1) % 5
  {
  }

  /** Five ticks bring the carousel back to where it started. */
  lemma FullCycle(start: nat)
    requires start < |YogaPoses|
    ensures AfterTicks(start, |YogaPoses|) == start
  {
    AfterTicksIsRotation(start, |YogaPoses|);
  }

  /** A chip of the row: its caption and the position a click selects. */
  datatype Chip = Chip(caption: string, target: nat)

  /** The row of chips, one per pose, each selecting its own position. */
  function Chips(): (row: seq<Chip>)
    ensures |row| == |YogaPoses|
    ensures forall i | 0 <= i < |row| :: row[i].caption == YogaPoses[i] && row[i].target == i
    ensures forall c | c in row :: c.target < |YogaPoses|
  {
    seq(|YogaPoses|, i requires 0 <= i < |YogaPoses| => Chip(YogaPoses[i], i))
  }

  /** The carousel state of the page. */
  class Carousel {
    var currentPoseIndex: nat

    /** The position always names a pose and an image. */
    ghost predicate Valid()
      reads this
    {
      currentPoseIndex < |YogaPoses|
    }

    constructor ()
      ensures Valid() && currentPoseIndex == 0
    {
      currentPoseIndex := 0;
    }

    /** One timer tick. */
    method Tick()
      requires Valid()
      modifies this
      ensures Valid()
      ensures currentPoseIndex == NextIndex(old(currentPoseIndex))
    {
      currentPoseIndex := (currentPoseIndex + 1) % |YogaPoses|;
    }

    /** A click on `chip`, one of the chips of the row. */
    method ClickChip(chip: Chip)
      requires chip in Chips()
      modifies this
      ensures Valid()
      ensures currentPoseIndex == chip.target
    {
      currentPoseIndex := chip.target;
    }

    /** The pose and the image at the current position. */
    function Current(): (shown: (string, string))
      reads this
      requires Valid()
      ensures shown.0 in YogaPoses && shown.1 in ImageList
    {
      ListsAligned();
      (YogaPoses[currentPoseIndex], ImageList[currentPoseIndex])
    }
  }

  /** The colour of a pose: its table entry, or the default colour. */
  function PoseColor(poseName: string): (color: string)
    ensures poseName in PoseColors ==> color == PoseColors[poseName]
    ensures poseName !in PoseColors ==> color == DefaultColor
  {
    if poseName in PoseColors then PoseColors[poseName] else DefaultColor
  }

  /** The shapes the 3D view can draw. */
  datatype Shape = DownDogModel | GoddessModel | PlankModel | TreeModel | Warrior2Model | DefaultBox

  /** The model drawn for a pose name and the colour it is drawn in. */
  datatype PoseModel = PoseModel(shape: Shape, color: string)

  /** `YogaPoseModel`: the model of a known pose, else a box. */
  function YogaPoseModel(poseName: string): (m: PoseModel)
    ensures m.color == PoseColor(poseName)
    ensures m.shape == DefaultBox <==> poseName !in YogaPoses
  {
    var color := PoseColor(poseName);
    match poseName
    case "downdog" => PoseModel(DownDogModel, color)
    case "goddess" => PoseModel(GoddessModel, color)
    case "plank" => PoseModel(PlankModel, color)
    case "tree" => PoseModel(TreeModel, color)
    case "warrior2" => PoseModel(Warrior2Model, color)
    case _ => PoseModel(DefaultBox, color)
  }

  /** Distinct known poses get distinct models, each in its own table colour. */
  lemma ModelsDistinct(a: string, b: string)
    requires a in YogaPoses && b in YogaPoses && a != b
    ensures YogaPoseModel(a).shape != YogaPoseModel(b).shape
    ensures YogaPoseModel(a).color == PoseColors[a]
  {
  }
}
