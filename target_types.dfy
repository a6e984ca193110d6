/**
 * The catalogue of flying target kinds (falcon, bat, armed bee) and the
 * lookups the game performs on it.
 */
module TargetTypes {
  import opened Common

  datatype DeathAnimation = DeathAnimation(rotation: string, scale: string, duration: int, easing: string)

  datatype TargetType = TargetType(
    name: string,
    assetId: string,
    animationClip: string,
    scale: real,
    points: int,
    hp: int,
    flySpeed: real,
    difficulty: string,
    deathAnimation: DeathAnimation)

  const Fly: TargetType := TargetType("Faucon", "target-fly", "metarig|Fly", 0.1, 10, 1, 0.8, "easy",
                                      DeathAnimation("360 360 360", "0 0 0", 300, "easeInQuad"))

  const Bat: TargetType := TargetType("Chauve-souris", "bat", "BatArmature|Bat_Flying", 0.1, 15, 2, 1.0, "medium",
                                      DeathAnimation("0 720 0", "0 0 0", 350, "easeInCubic"))

  const Armabee: TargetType := TargetType("Abeille armée", "armabee", "CharacterArmature|Flying_Idle", 0.1, 20, 3, 0.6, "hard",
                                          DeathAnimation("180 360 180", "0 0 0", 400, "easeInQuart"))

  /** `Object.values(TARGET_TYPES)`: the table in declaration order. */
  const Types: seq<TargetType> := [Fly, Bat, Armabee]

  /** The animation used when no table entry matches. */
  const DefaultDeathAnimation: DeathAnimation := DeathAnimation("360 360 360", "0 0 0", 300, "easeInQuad")

  /** Index `Math.floor(draw · 3)` of the table, for a draw in [0,1). */
  function RandomTargetType(draw: real): (t: TargetType)
    requires IsDraw(draw)
    ensures t in Types
  {
    DrawIndex(draw, |Types|);
    Types[JsFloor(draw * |Types| as real)]
  }

  /** The for-of search of the table used by both lookups: the first entry whose `key` is `value`. */
  function FindFirst(types: seq<TargetType>, key: TargetType -> string, value: string): (r: Option<nat>)
    ensures r.Some? ==> r.value < |types| && key(types[r.value]) == value
                        && forall j :: 0 <= j < r.value ==> key(types[j]) != value
    ensures r.None? ==> forall j :: 0 <= j < |types| ==> key(types[j]) != value
  {
    if |types| == 0 then None
    else if key(types[0]) == value then Some(0)
    else match FindFirst(types[1..], key, value)
      case None => None
      case Some(k) => Some(k + 1)
  }

  /** `getTargetByDifficulty`: the first entry of that difficulty, else the falcon. */
  function TargetByDifficulty(difficulty: string): (t: TargetType)
    ensures t in Types
    ensures (exists j :: 0 <= j < |Types| && Types[j].difficulty == difficulty) ==> t.difficulty == difficulty
    ensures (forall j :: 0 <= j < |Types| ==> Types[j].difficulty != difficulty) ==> t == Fly
  {
    match FindFirst(Types, (t: TargetType) => t.difficulty, difficulty)
    case None => Fly
    case Some(k) => Types[k]
  }

  /** `getDeathAnimation` accepts either a target type object or an asset id string. */
  datatype DeathQuery = ByType(targetType: TargetType) | ByAssetId(assetId: string)

  function DeathAnimationOf(q: DeathQuery): (d: DeathAnimation)
    ensures q.ByType? ==> d == q.targetType.deathAnimation
    ensures q.ByAssetId? ==>
      (forall j :: 0 <= j < |Types| && Types[j].assetId == q.assetId ==> d == Types[j].deathAnimation)
    ensures q.ByAssetId? && (forall j :: 0 <= j < |Types| ==> Types[j].assetId != q.assetId) ==>
      d == DefaultDeathAnimation
  {
    match q
    case ByType(t) => t.deathAnimation
    case ByAssetId(id) =>
      match FindFirst(Types, (t: TargetType) => t.assetId, id)
      case None => DefaultDeathAnimation
      case Some(k) =>
        assert TableIdsDistinct: forall i, j :: 0 <= i < j < |Types| ==> Types[i].assetId != Types[j].assetId;
        Types[k].deathAnimation
  }

  /** The fixed text pieces of `createTargetHTML`'s template literal. */
  const HtmlHead: string := "\n    <a-entity \n      gltf-model=\"#"
  const HtmlScale: string := "\" \n      scale=\""
  const HtmlClip: string := "\" \n      animation-mixer=\"clip: "
  const HtmlTail: string := "; loop: repeat; timeScale: 0.7\"\n    ></a-entity>\n  "

  /**
   * `createTargetHTML`; `numberText` is JavaScript's number-to-string
   * conversion applied to the scale inside the template literal.
   */
  function CreateTargetHTML(t: TargetType, numberText: real -> string): string
  {
    var s := numberText(t.scale);
    var scales := s + " " + s + " " + s;
    HtmlHead + t.assetId + HtmlScale + scales + HtmlClip + t.animationClip + HtmlTail
  }

  /** Where each variable piece of a five-part template sits in the result. */
  lemma TemplatePieces(head: string, a: string, mid: string, b: string, clip: string, c: string, tail: string)
    ensures var r := head + a + mid + b + clip + c + tail;
            var i := |head|;
            var j := i + |a| + |mid|;
            var k := j + |b| + |clip|;
            |r| == k + |c| + |tail| && r[..i] == head && r[i..i + |a|] == a && r[j..j + |b|] == b && r[k..k + |c|] == c
  {
    var x1 := head + a;
    var x2 := x1 + mid;
    var x3 := x2 + b;
    var x4 := x3 + clip;
    var x5 := x4 + c;
    var r := x5 + tail;
    InLeft(x1, mid, 0, |head|);
    InLeft(x2, b, 0, |head|);
    InLeft(x3, clip, 0, |head|);
    InLeft(x4, c, 0, |head|);
    InLeft(x5, tail, 0, |head|);
    AtEnd(head, a);
    InLeft(x1, mid, |head|, |x1|);
    InLeft(x2, b, |head|, |x1|);
    InLeft(x3, clip, |head|, |x1|);
    InLeft(x4, c, |head|, |x1|);
    InLeft(x5, tail, |head|, |x1|);
    AtEnd(x2, b);
    InLeft(x3, clip, |x2|, |x3|);
    InLeft(x4, c, |x2|, |x3|);
    InLeft(x5, tail, |x2|, |x3|);
    AtEnd(x4, c);
    InLeft(x5, tail, |x4|, |x5|);
  }

  /** A slice inside the left operand of a concatenation is a slice of that operand. */
  lemma InLeft(p: string, q: string, lo: nat, hi: nat)
    requires lo <= hi <= |p|
    ensures (p + q)[lo..hi] == p[lo..hi]
  {
  }

  /** The right operand of a concatenation sits right after the left one. */
  lemma AtEnd(p: string, q: string)
    ensures (p + q)[|p|..|p| + |q|] == q
  {
  }

  /**
   * The generated markup references the asset as `#assetId`, writes the
   * scale three times separated by spaces and names the animation clip.
   */
  lemma CreateTargetHTMLEmbeds(t: TargetType, numberText: real -> string)
    ensures var html := CreateTargetHTML(t, numberText);
            var s := numberText(t.scale);
            var i := |HtmlHead|;
            var j := i + |t.assetId| + |HtmlScale|;
            var k := j + 3 * |s| + 2 + |HtmlClip|;
            html[..i] == HtmlHead && html[i..i + |t.assetId|] == t.assetId
            && html[j..j + 3 * |s| + 2] == s + " " + s + " " + s
            && html[k..k + |t.animationClip|] == t.animationClip
  {
    TemplateEmbeds(HtmlHead, t.assetId, HtmlScale, numberText(t.scale), HtmlClip, t.animationClip, HtmlTail);
  }

  /** `TemplatePieces` for the template's shape, whose second variable piece is a scale written three times. */
  lemma TemplateEmbeds(head: string, id: string, scale: string, s: string, clip: string, anim: string, tail: string)
    ensures var html := head + id + scale + (s + " " + s + " " + s) + clip + anim + tail;
            var i := |head|;
            var j := i + |id| + |scale|;
            var k := j + 3 * |s| + 2 + |clip|;
            html[..i] == head && html[i..i + |id|] == id
            && html[j..j + 3 * |s| + 2] == s + " " + s + " " + s
            && html[k..k + |anim|] == anim
  {
    var scales := s + " " + s + " " + s;
    assert |scales| == 3 * |s| + 2;
    TemplatePieces(head, id, scale, scales, clip, anim, tail);
  }

  /**
   * The table's shape: distinct asset ids and difficulties, with hit points
   * 1/2/3 and points 10/15/20 from easy to hard.
   */
  lemma TableShape()
    ensures |Types| == 3
    ensures forall i, j :: 0 <= i < j < |Types| ==> Types[i].assetId != Types[j].assetId
    ensures forall i, j :: 0 <= i < j < |Types| ==> Types[i].difficulty != Types[j].difficulty
    ensures [Types[0].difficulty, Types[1].difficulty, Types[2].difficulty] == ["easy", "medium", "hard"]
    ensures [Types[0].hp, Types[1].hp, Types[2].hp] == [1, 2, 3]
    ensures [Types[0].points, Types[1].points, Types[2].points] == [10, 15, 20]
  {
  }

  /** 'normal' is not a difficulty of the table, so the lookup falls back to the falcon. */
  lemma NormalDifficultyIsFly()
    ensures TargetByDifficulty("normal") == Fly
  {
  }

  /** Each known asset id yields its own type's death animation. */
  lemma DeathAnimationByKnownAsset(j: nat)
    requires j < |Types|
    ensures DeathAnimationOf(ByAssetId(Types[j].assetId)) == Types[j].deathAnimation
  {
  }
}
