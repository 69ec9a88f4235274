/**
 * The pose detail page, reached at `/poses/<poseName>`: an accent colour
 * picked from the characters of the name, the pose record derived from
 * the name, and a panel of details looked up by the name.
 */
module PoseDetail {
  import opened Wrappers
  import opened PosesList

  /** The palette the accent colour is picked from. */
  const DetailColors: seq<string> := ["#9c27b0", "#673ab7", "#3f51b5", "#2196f3", "#FDC9BA"]

  /** The names the page knows, in the order of its lookups. */
  const DetailKeys: seq<string> := ["downdog", "goddess", "plank", "tree", "warrior2"]

  /** A high surrogate followed by a low surrogate (section 2.2 of RFC 2781). */
  predicate IsSurrogatePair(hi: int, lo: int)
  {
    0xD800 <= hi <= 0xDBFF && 0xDC00 <= lo <= 0xDFFF
  }

  /** The character a surrogate pair stands for (section 2.2 of RFC 2781). */
  function DecodeSurrogatePair(hi: int, lo: int): int
  {
    (hi - 0xD800) * 0x400 + (lo - 0xDC00) + 0x1_0000
  }

  /**
   * What `split('')` and `charCodeAt(0)` add up for one character: its code
   * when it is in the Basic Multilingual Plane, otherwise the two halves of
   * the UTF-16 surrogate pair that encodes it.
   */
  function CodeUnitSum(c: char): (n: nat)
    ensures c as int < 0x1_0000 ==> n == c as int
    ensures c as int >= 0x1_0000 ==>
              exists hi: int, lo: int :: IsSurrogatePair(hi, lo) && DecodeSurrogatePair(hi, lo) == c as int && n == hi + lo
  {
    var code := c as int;
    if code < 0x1_0000 then code
    else
      var offset := code - 0x1_0000;
      var hi := 0xD800 + offset / 0x400;
      var lo := 0xDC00 + offset % 0x400;
      assert IsSurrogatePair(hi, lo) && DecodeSurrogatePair(hi, lo) == code;
      hi + lo
  }

  /** U+1F600 is summed as its surrogates 0xD83D and 0xDE00, not as 0x1F600. */
  lemma AstralCharSumsSurrogates()
    ensures CodeUnitSum('\U{1F600}') == 0xD83D + 0xDE00 == 112189
    ensures UniqueColorIndex(Some("\U{1F600}")) == 4
  {
    assert "\U{1F600}"[..0] == [];
  }

  /** Sum of the UTF-16 character codes of `s`, folded from the left. */
  function CharCodeSum(s: string): (n: nat)
    ensures s == [] ==> n == 0
    ensures forall i | 0 <= i < |s| :: CodeUnitSum(s[i]) <= n
  {
    if s == [] then 0 else CharCodeSum(s[..|s| - 1]) + CodeUnitSum(s[|s| - 1])
  }

  /** The sum over a concatenation is the sum of the sums. */
  lemma {:induction false} CharCodeSumConcat(a: string, b: string)
    ensures CharCodeSum(a + b) == CharCodeSum(a) + CharCodeSum(b)
  {
    if b == [] {
      assert a + b == a;
    } else {
      var c := a + b;
      assert c[..|c| - 1] == a + b[..|b| - 1];
      assert c[|c| - 1] == b[|b| - 1];
      CharCodeSumConcat(a, b[..|b| - 1]);
    }
  }

  /** `poseName?.split('').reduce(...) || 0`: 0 when there is no name. */
  function NameSum(poseName: Option<string>): (n: nat)
    ensures poseName.None? || poseName == Some("") ==> n == 0
    ensures poseName.Some? ==> n == CharCodeSum(poseName.value)
  {
    match poseName
    case None => 0
    case Some(s) => CharCodeSum(s)
  }

  /** The palette position of the accent colour: the name sum modulo 5. */
  function UniqueColorIndex(poseName: Option<string>): (i: nat)
    ensures i < |DetailColors|
    ensures poseName.None? || poseName == Some("") ==> i == 0
    ensures (NameSum(poseName) - i) % |DetailColors| == 0
  {
    NameSum(poseName) % |DetailColors|
  }

  /** The accent colour of the page. */
  function UniqueColor(poseName: Option<string>): (c: string)
    ensures c in DetailColors
    ensures poseName.None? ==> c == "#9c27b0"
  {
    DetailColors[UniqueColorIndex(poseName)]
  }

  /** Swapping the two halves of a name keeps its colour. */
  lemma RotatedNameSameColor(a: string, b: string)
    ensures UniqueColor(Some(a + b)) == UniqueColor(Some(b + a))
  {
    CharCodeSumConcat(a, b);
    CharCodeSumConcat(b, a);
  }

  /** The pose id the page derives from its name; unknown names give 5. */
  function PoseId(poseName: Option<string>): (id: int)
    ensures forall i | 0 <= i < |DetailKeys| :: poseName == Some(DetailKeys[i]) ==> id == i + 1
    ensures id == 5 <==> !(poseName.Some? && poseName.value in {"downdog", "goddess", "plank", "tree"})
    ensures 1 <= id <= 5
  {
    if poseName == Some("downdog") then 1
    else if poseName == Some("goddess") then 2
    else if poseName == Some("plank") then 3
    else if poseName == Some("tree") then 4
    else 5
  }

  /** The display name, parallel to `PoseId`; unknown names give "Warrior 2". */
  function PoseTitle(poseName: Option<string>): (title: string)
    ensures title == ["Down Dog", "Goddess", "Plank", "Tree", "Warrior 2"][PoseId(poseName) - 1]
  {
    if poseName == Some("downdog") then "Down Dog"
    else if poseName == Some("goddess") then "Goddess"
    else if poseName == Some("plank") then "Plank"
    else if poseName == Some("tree") then "Tree"
    else "Warrior 2"
  }

  /** The short description, parallel to `PoseId`. */
  function PoseDescription(poseName: Option<string>): (text: string)
    ensures text == [
              "Aşağı Bakan Köpek pozu sırtı ve bacakları esnetir.",
              "Tanrıça pozu kalçaları açar ve güçlendirir.",
              "Plank pozu karın kaslarını güçlendirir.",
              "Ağaç pozu dengeyi geliştirir.",
              "Savaşçı 2 pozu bacak kaslarını güçlendirir."
            ][PoseId(poseName) - 1]
  {
    if poseName == Some("downdog") then "Aşağı Bakan Köpek pozu sırtı ve bacakları esnetir."
    else if poseName == Some("goddess") then "Tanrıça pozu kalçaları açar ve güçlendirir."
    else if poseName == Some("plank") then "Plank pozu karın kaslarını güçlendirir."
    else if poseName == Some("tree") then "Ağaç pozu dengeyi geliştirir."
    else "Savaşçı 2 pozu bacak kaslarını güçlendirir."
  }

  /** The record the page builds for `poseName`. */
  function PoseData(poseName: string): (p: YogaPose)
    ensures p.id == PoseId(Some(poseName)) && p.name == PoseTitle(Some(poseName))
    ensures p.description == PoseDescription(Some(poseName))
    ensures p.imageUrl == "/images/poses/" + poseName + ".jpg"
    ensures p.modelUrl == "/models/poses/" + poseName + ".glb"
  {
    YogaPose(PoseId(Some(poseName)), PoseTitle(Some(poseName)), PoseDescription(Some(poseName)),
             "/images/poses/" + poseName + ".jpg", "/models/poses/" + poseName + ".glb")
  }

  /** The page state: the pose, once built, and whether it is still loading. */
  datatype DetailView = DetailView(pose: Option<YogaPose>, loading: bool)

  /**
   * The state after the page's effect: the pose is built only for a
   * non-empty name; otherwise the page stays in its loading state.
   */
  function ViewAfterEffect(poseName: Option<string>): (v: DetailView)
    ensures v.loading <==> v.pose.None?
    ensures v.pose.Some? <==> poseName.Some? && poseName.value != ""
    ensures v.pose.Some? ==> v.pose.value == PoseData(poseName.value)
  {
    if poseName.Some? && poseName.value != "" then DetailView(Some(PoseData(poseName.value)), false)
    else DetailView(None, true)
  }

  /** The details shown for one pose. */
  datatype PoseDetails = PoseDetails(difficulty: string, benefits: seq<string>, duration: string, caution: string)

  /** The details table of the page. */
  const Details: map<string, PoseDetails> := map[
    "downdog" := PoseDetails("Orta", ["Omurga esnetir", "Hamstring güçlendirir"], "30-60 sn", "Bilek problemleri"),
    "goddess" := PoseDetails("Orta", ["Kalça açar", "Bacak güçlendirir"], "30-60 sn", "Diz problemleri"),
    "plank" := PoseDetails("Zor", ["Çekirdek güçlendirir", "Duruş iyileştirir"], "20-60 sn", "Bilek problemleri"),
    "tree" := PoseDetails("Orta", ["Denge geliştirir", "Kasları güçlendirir"], "30-60 sn", "Denge problemleri"),
    "warrior2" := PoseDetails("Orta", ["Bacak güçlendirir", "Göğüs açar"], "30-60 sn", "Diz problemleri")
  ]

  /** A details entry with two benefits and every text field filled in. */
  predicate Complete(d: PoseDetails)
  {
    |d.benefits| == 2 && d.difficulty != "" && d.duration != "" && d.caution != ""
    && forall b | b in d.benefits :: b != ""
  }

  /** The table has exactly the five page keys, and every entry is complete. */
  lemma DetailsTableShape()
    ensures Details.Keys == set i | 0 <= i < |DetailKeys| :: DetailKeys[i]
    ensures forall k | k in Details :: Complete(Details[k])
  {
    var keys := set i | 0 <= i < |DetailKeys| :: DetailKeys[i];
    assert DetailKeys[0] in keys && DetailKeys[1] in keys && DetailKeys[2] in keys;
    assert DetailKeys[3] in keys && DetailKeys[4] in keys;
  }

  /** The details panel as it renders. */
  datatype Panel = NoPanel | DetailsPanel(details: PoseDetails) | TypeError

  /**
   * The details for `poseName`: nothing without a name, and otherwise the
   * entry stored under that name itself, if there is one.
   */
  function LookupPoseDetails(poseName: Option<string>): (d: Option<PoseDetails>)
    ensures d.Some? <==> poseName.Some? && poseName.value in Details
    ensures d.Some? ==> d.value == Details[poseName.value] && Complete(d.value)
  {
    DetailsTableShape();
    if poseName.None? || poseName.value == "" || poseName.value !in Details then None
    else Some(Details[poseName.value])
  }

  /** The panel for a lookup result: shown exactly when there is an entry. */
  function RenderPanel(d: Option<PoseDetails>): (p: Panel)
    ensures p != TypeError
    ensures p.DetailsPanel? <==> d.Some?
    ensures d.Some? ==> p == DetailsPanel(d.value)
  {
    if d.Some? then DetailsPanel(d.value) else NoPanel
  }

  /** The panel is shown for the five page keys and for no other name. */
  lemma PanelOnlyForKnownPoses(poseName: Option<string>)
    ensures RenderPanel(LookupPoseDetails(poseName)).DetailsPanel?
        <==> exists i | 0 <= i < |DetailKeys| :: poseName == Some(DetailKeys[i])
  {
    DetailsTableShape();
    if poseName.Some? && poseName.value in Details {
      var k := poseName.value;
      assert k in set i | 0 <= i < |DetailKeys| :: DetailKeys[i];
    }
  }

  /* ---- The lookup as the page writes it ---- */

  /** Names every plain JavaScript object inherits from `Object.prototype`. */
  const ObjectPrototypeMembers: set<string> := {
    "constructor", "hasOwnProperty", "isPrototypeOf", "propertyIsEnumerable",
    "toLocaleString", "toString", "valueOf", "__proto__",
    "__defineGetter__", "__defineSetter__", "__lookupGetter__", "__lookupSetter__"
  }

  /** A value the page's lookup can produce. */
  datatype JsValue = Null | Undefined | Entry(details: PoseDetails) | Inherited(member: string)

  /**
   * `details[poseName]` on an object literal: its own entries first, then
   * the members it inherits (all of them truthy), else `undefined`; `null`
   * without a name.
   */
  function PoseDetailsAsWritten(poseName: Option<string>): (v: JsValue)
    ensures v.Null? <==> poseName.None? || poseName.value == ""
    ensures v.Entry? <==> poseName.Some? && poseName.value in DetailKeys
    ensures v.Entry? ==> v.details == Details[poseName.value]
    ensures v.Inherited? <==> poseName.Some? && poseName.value in ObjectPrototypeMembers
    ensures v.Undefined? <==> poseName.Some? && poseName.value != ""
                              && poseName.value !in DetailKeys && poseName.value !in ObjectPrototypeMembers
  {
    if poseName.None? || poseName.value == "" then Null
    else if poseName.value in Details then Entry(Details[poseName.value])
    else if poseName.value in ObjectPrototypeMembers then Inherited(poseName.value)
    else Undefined
  }

  /**
   * The panel rendered from that value: falsy values show nothing; a
   * truthy value without a `benefits` list fails at `benefits.map`.
   */
  function RenderPanelAsWritten(v: JsValue): (p: Panel)
    ensures p == TypeError <==> v.Inherited?
    ensures p.DetailsPanel? <==> v.Entry?
    ensures v.Entry? ==> p == DetailsPanel(v.details)
  {
    match v
    case Null => NoPanel
    case Undefined => NoPanel
    case Entry(d) => DetailsPanel(d)
    case Inherited(_) => TypeError
  }

  /** Visiting `/poses/constructor` makes the panel throw while rendering. */
  lemma ConstructorRouteThrows()
    ensures RenderPanelAsWritten(PoseDetailsAsWritten(Some("constructor"))) == TypeError
  {
  }

  /** Away from the inherited names the written lookup and the corrected one agree. */
  lemma AsWrittenAgreesOffPrototype(poseName: Option<string>)
    requires poseName.None? || poseName.value !in ObjectPrototypeMembers
    ensures RenderPanelAsWritten(PoseDetailsAsWritten(poseName)) == RenderPanel(LookupPoseDetails(poseName))
  {
  }

  /* ---- The list page and the detail page agree ---- */

  /** The pose at position `i` of the list links to the `i`-th page key. */
  lemma ListSlugIsDetailKey(i: nat)
    requires i < |SimulatedPoses|
    ensures Slug(SimulatedPoses[i].name) == DetailKeys[i]
  {
    if i == 0 { SlugDownDog(); }
    else if i == 1 { SlugGoddess(); }
    else if i == 2 { SlugPlank(); }
    else if i == 3 { SlugTree(); }
    else { SlugWarrior2(); }
  }

  lemma SlugDownDog() ensures Slug("Down Dog") == "downdog" { SlugOfSpaced("Down Dog", "down dog", 4, "downdog"); }
  lemma SlugGoddess() ensures Slug("Goddess") == "goddess" { SlugOfPlain("Goddess", "goddess"); }
  lemma SlugPlank() ensures Slug("Plank") == "plank" { SlugOfPlain("Plank", "plank"); }
  lemma SlugTree() ensures Slug("Tree") == "tree" { SlugOfPlain("Tree", "tree"); }
  lemma SlugWarrior2() ensures Slug("Warrior 2") == "warrior2" { SlugOfSpaced("Warrior 2", "warrior 2", 7, "warrior2"); }

  /** A string is the lower-cased form of `name` when it is so character by character. */
  lemma ToLowerIs(name: string, lower: string)
    requires |lower| == |name| && forall i | 0 <= i < |name| :: lower[i] == LowerChar(name[i])
    ensures ToLower(name) == lower
  {
  }

  /** The slug of a name without spaces is its lower-cased form. */
  lemma SlugOfPlain(name: string, lower: string)
    requires ToLower(name) == lower
    requires forall i | 0 <= i < |lower| :: lower[i] != ' '
    ensures Slug(name) == lower
  {
    RemoveFirstSpaceNone(lower);
  }

  /** The slug of a name whose first space sits at `k` drops that space. */
  lemma SlugOfSpaced(name: string, lower: string, k: nat, slug: string)
    requires |lower| == |name| && forall i | 0 <= i < |name| :: lower[i] == LowerChar(name[i])
    requires k < |lower| && lower[k] == ' ' && forall i | 0 <= i < k :: lower[i] != ' '
    requires slug == lower[..k] + lower[k + 1..]
    ensures Slug(name) == slug
  {
    ToLowerIs(name, lower);
    RemoveFirstSpaceAt(lower, k);
  }

  /**
   * The detail page of the `i`-th key has a details entry and rebuilds the
   * id, name, image URL and model URL of the `i`-th pose of the list.
   */
  lemma DetailPageRebuildsListPose(i: nat)
    requires i < |SimulatedPoses|
    ensures DetailKeys[i] in Details
    ensures PoseData(DetailKeys[i]).id == SimulatedPoses[i].id
    ensures PoseData(DetailKeys[i]).name == SimulatedPoses[i].name
    ensures PoseData(DetailKeys[i]).imageUrl == SimulatedPoses[i].imageUrl
    ensures PoseData(DetailKeys[i]).modelUrl == SimulatedPoses[i].modelUrl
  {
  }

  /**
   * Once loaded, the list page shows one card per pose, and the `i`-th
   * card and its button both lead to the detail page of the `i`-th key.
   */
  lemma LoadedGridLinksToDetailPages(i: nat)
    requires i < |SimulatedPoses|
    ensures |Grid(LoadedState.loading, LoadedState.poses)| == |DetailKeys|
    ensures Grid(LoadedState.loading, LoadedState.poses)[i].Card?
    ensures Grid(LoadedState.loading, LoadedState.poses)[i].card.cardLink == "/poses/" + DetailKeys[i]
    ensures Grid(LoadedState.loading, LoadedState.poses)[i].card.buttonLink == "/poses/" + DetailKeys[i]
  {
    ListSlugIsDetailKey(i);
  }
}
