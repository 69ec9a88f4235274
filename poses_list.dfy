/**
 * The pose list page: a fixed table of five poses, each shown as a card
 * with a colour from a five-entry palette, a shortened description, and a
 * link to the pose's detail page built from a slug of its name.
 */
module PosesList {

  /** A yoga pose as the list and detail pages show it. */
  datatype YogaPose = YogaPose(id: int, name: string, description: string, imageUrl: string, modelUrl: string)

  /** The poses the page shows in place of a server response. */
  const SimulatedPoses: seq<YogaPose> := [
    YogaPose(1, "Down Dog",
      "Aşağı Bakan Köpek (Down Dog) pozu, sırtı ve bacaların arkasını esnetir ve kol, omuz ve hamstringleri güçlendirir.",
      "/images/poses/downdog.jpg", "/models/poses/downdog.glb"),
    YogaPose(2, "Goddess",
      "Tanrıça (Goddess) pozu, kalçaları açar, bacakları ve çekirdek gücü güçlendirir.",
      "/images/poses/goddess.jpg", "/models/poses/goddess.glb"),
    YogaPose(3, "Plank",
      "Plank pozu, karın kaslarını, kolları ve bilekleri güçlendirir ve duruşu iyileştirir.",
      "/images/poses/plank.jpg", "/models/poses/plank.glb"),
    YogaPose(4, "Tree",
      "Ağaç (Tree) pozu, denge, konsantrasyon ve duruşu geliştirir.",
      "/images/poses/tree.jpg", "/models/poses/tree.glb"),
    YogaPose(5, "Warrior 2",
      "Savaşçı 2 (Warrior 2) pozu, bacakları güçlendirir, göğsü açar ve dayanıklılığı artırır.",
      "/images/poses/warrior2.jpg", "/models/poses/warrior2.glb")
  ]

  /** The placeholder palette of the cards. */
  const PlaceholderColors: seq<string> := ["#9c27b0", "#673ab7", "#3f51b5", "#2196f3", "#00bcd4"]

  /** Number of skeleton cards shown while loading. */
  const SkeletonCount: nat := 5

  /** Longest description shown in full. */
  const DescriptionLimit: nat := 100

  /** The simulated table: five poses, numbered 1 to 5 in order. */
  lemma SimulatedTableShape()
    ensures |SimulatedPoses| == 5
    ensures forall i | 0 <= i < |SimulatedPoses| :: SimulatedPoses[i].id == i + 1
    ensures forall i, j | 0 <= i < j < |SimulatedPoses| :: SimulatedPoses[i].id != SimulatedPoses[j].id
  {
  }

  /** JavaScript's `%`: the remainder takes the sign of the dividend. */
  function JsRemainder(a: int, b: int): (r: int)
    requires b > 0
    ensures a >= 0 ==> 0 <= r < b && r == a % b
    ensures a < 0 ==> -b < r <= 0 && r == -((-a) % b)
  {
    if a >= 0 then a % b else -((-a) % b)
  }

  /** The palette position of a card: `id % placeholderColors.length`. */
  function ColorIndex(id: int): (r: int)
    ensures id >= 0 ==> 0 <= r < |PlaceholderColors| && r == id % |PlaceholderColors|
    ensures id < 0 ==> r <= 0
  {
    JsRemainder(id, |PlaceholderColors|)
  }

  /** Lower-cases one ASCII letter; every other character is kept. */
  function LowerChar(c: char): (r: char)
    ensures 'A' <= c <= 'Z' ==> r as int == c as int + 32
    ensures !('A' <= c <= 'Z') ==> r == c
  {
    if 'A' <= c <= 'Z' then (c as int + 32) as char else c
  }

  /** `toLowerCase()` on a string. */
  function ToLower(s: string): (r: string)
    ensures |r| == |s|
    ensures forall i | 0 <= i < |s| :: r[i] == LowerChar(s[i])
    ensures ' ' in r <==> ' ' in s
    ensures forall c | c in r :: !('A' <= c <= 'Z')
  {
    if s == [] then [] else [LowerChar(s[0])] + ToLower(s[1..])
  }

  /** `replace(' ', '')`: with a string pattern only the first match goes. */
  function RemoveFirstSpace(s: string): (r: string)
    ensures ' ' in s ==> |r| == |s| - 1 && multiset(r) + multiset{' '} == multiset(s)
    ensures ' ' !in s ==> r == s
  {
    if s == [] then []
    else
      assert s == [s[0]] + s[1..];
      if s[0] == ' ' then s[1..] else [s[0]] + RemoveFirstSpace(s[1..])
  }

  /**
   * Removing the first space cuts the string at its first space and keeps
   * everything else, later spaces included.
   */
  lemma {:induction false} RemoveFirstSpaceAt(s: string, k: nat)
    requires k < |s| && s[k] == ' '
    requires forall i | 0 <= i < k :: s[i] != ' '
    ensures RemoveFirstSpace(s) == s[..k] + s[k + 1..]
  {
    if k > 0 {
      RemoveFirstSpaceAt(s[1..], k - 1);
      assert s[1..][..k - 1] == s[1..k];
      assert s[1..][k..] == s[k + 1..];
      assert [s[0]] + s[1..k] == s[..k];
    }
  }

  /** A string without spaces is left as it is. */
  lemma {:induction false} RemoveFirstSpaceNone(s: string)
    requires forall i | 0 <= i < |s| :: s[i] != ' '
    ensures RemoveFirstSpace(s) == s
  {
    if s != [] {
      RemoveFirstSpaceNone(s[1..]);
    }
  }

  /** The detail-page slug of a pose name. */
  function Slug(name: string): (slug: string)
    ensures ' ' in name ==> |slug| == |name| - 1
    ensures ' ' !in name ==> slug == ToLower(name)
    ensures forall c | c in slug :: !('A' <= c <= 'Z')
  {
    var lower := ToLower(name);
    var slug := RemoveFirstSpace(lower);
    assert forall c | c in slug :: c in multiset(lower);
    slug
  }

  /** The route a card and its button both lead to. */
  function DetailPath(pose: YogaPose): string
  {
    "/poses/" + Slug(pose.name)
  }

  /** The description as a card shows it: at most 100 characters, then "...". */
  function ShortDescription(description: string): (r: string)
    ensures |description| <= DescriptionLimit ==> r == description
    ensures |description| > DescriptionLimit ==>
              |r| == DescriptionLimit + 3
              && r[..DescriptionLimit] == description[..DescriptionLimit]
              && r[DescriptionLimit..] == "..."
    ensures |r| <= DescriptionLimit + 3
  {
    if |description| > DescriptionLimit then description[..DescriptionLimit] + "..." else description
  }

  /** A shortened description is always a prefix of the original plus at most "...". */
  lemma ShortDescriptionKeepsPrefix(description: string)
    ensures var r := ShortDescription(description);
            var n := if |description| < DescriptionLimit then |description| else DescriptionLimit;
            r[..n] == description[..n]
  {
  }

  /** What one card of the grid shows and where its two links lead. */
  datatype PoseCard = PoseCard(key: int, cardLink: string, colorIndex: int, title: string, text: string, buttonLink: string)

  /** One item of the grid: a loading skeleton or a pose card. */
  datatype GridItem = Skeleton(colorIndex: int) | Card(card: PoseCard)
  {
    /** The palette position the item is drawn with. */
    function Color(): int
    {
      match this
      case Skeleton(c) => c
      case Card(card) => card.colorIndex
    }
  }

  /** The card for one pose. */
  function RenderCard(pose: YogaPose): (c: PoseCard)
    ensures c.cardLink == c.buttonLink == "/poses/" + Slug(pose.name)
    ensures pose.id >= 0 ==> 0 <= c.colorIndex < |PlaceholderColors|
    ensures |c.text| <= DescriptionLimit + 3
  {
    PoseCard(pose.id, DetailPath(pose), ColorIndex(pose.id), pose.name,
             ShortDescription(pose.description), DetailPath(pose))
  }

  /** The grid: five skeletons while loading, then one card per pose. */
  function Grid(loading: bool, poses: seq<YogaPose>): (g: seq<GridItem>)
    ensures loading ==> |g| == SkeletonCount
                        && forall i | 0 <= i < |g| :: g[i] == Skeleton(i)
    ensures !loading ==> |g| == |poses| && forall i | 0 <= i < |g| :: g[i] == Card(RenderCard(poses[i]))
    ensures (forall p | p in poses :: p.id >= 0) ==>
              forall i | 0 <= i < |g| :: 0 <= g[i].Color() < |PlaceholderColors|
  {
    if loading then seq(SkeletonCount, i requires 0 <= i < SkeletonCount => Skeleton(ColorIndex(i)))
    else seq(|poses|, i requires 0 <= i < |poses| => Card(RenderCard(poses[i])))
  }

  /** The page state: the poses and whether they are still loading. */
  datatype ListState = ListState(poses: seq<YogaPose>, loading: bool)

  /** Before the effect runs: no poses, loading. */
  const InitialState: ListState := ListState([], true)

  /** After the effect has run: the simulated table, loading done. */
  const LoadedState: ListState := ListState(SimulatedPoses, false)
}
