/** The intermediate project description (the dictionary with "projectName",
    "sprites", "backgrounds" and "events" that the converter compiles) and the
    keyword classifier that picks one of four hand-written descriptions when no
    language model answers (`_get_default_project_template`). */
module ProjectDescription {
  import opened Wrappers
  import opened TextOps

  /** One entry of "sprites": each key may be missing. */
  datatype SpriteDesc = SpriteDesc(name: Option<string>, scripts: Option<seq<string>>)

  /** The description; each key may be missing from a decoded model answer. */
  datatype Description = Description(
    projectName: Option<string>,
    sprites: Option<seq<SpriteDesc>>,
    backgrounds: Option<seq<string>>,
    events: Option<seq<string>>)

  /** `sprite_desc.get("name", "Sprite")`. */
  function SpriteName(sd: SpriteDesc): string
  {
    sd.name.GetOr("Sprite")
  }

  /** `sprite_desc.get("scripts", [])`. */
  function ScriptsOf(sd: SpriteDesc): seq<string>
  {
    sd.scripts.GetOr([])
  }

  /** `project_description.get("sprites", [])`. */
  function SpritesOf(d: Description): seq<SpriteDesc>
  {
    d.sprites.GetOr([])
  }

  /** `project_description.get("backgrounds", [])`. */
  function BackgroundsOf(d: Description): seq<string>
  {
    d.backgrounds.GetOr([])
  }

  /** The four hand-written descriptions. */
  datatype TemplateKind = GameTemplate | AnimationTemplate | StoryTemplate | GenericTemplate

  predicate HasGameKeyword(lowered: string)
  {
    Contains(lowered, "游戏") || Contains(lowered, "game")
  }

  predicate HasAnimationKeyword(lowered: string)
  {
    Contains(lowered, "动画") || Contains(lowered, "animation")
  }

  predicate HasStoryKeyword(lowered: string)
  {
    Contains(lowered, "故事") || Contains(lowered, "story")
  }

  /** The keyword test on the lower-cased text: the first family that matches
      wins, in the order game, animation, story; no match gives the generic
      description.  Exactly one kind results for every text. */
  function ClassifyText(text: string): (k: TemplateKind)
    ensures k == GameTemplate <==> HasGameKeyword(ToLower(text))
    ensures k == AnimationTemplate <==>
              !HasGameKeyword(ToLower(text)) && HasAnimationKeyword(ToLower(text))
    ensures k == StoryTemplate <==>
              !HasGameKeyword(ToLower(text)) && !HasAnimationKeyword(ToLower(text))
              && HasStoryKeyword(ToLower(text))
    ensures k == GenericTemplate <==>
              !HasGameKeyword(ToLower(text)) && !HasAnimationKeyword(ToLower(text))
              && !HasStoryKeyword(ToLower(text))
  {
    var keywords := ToLower(text);
    if HasGameKeyword(keywords) then GameTemplate
    else if HasAnimationKeyword(keywords) then AnimationTemplate
    else if HasStoryKeyword(keywords) then StoryTemplate
    else GenericTemplate
  }

  function NamedSprite(name: string, scripts: seq<string>): SpriteDesc
  {
    SpriteDesc(Some(name), Some(scripts))
  }

  /** The hand-written description for each kind.  The game description has the
      player "主角" with four scripts and the obstacle "障碍物" with three; the
      generic one has the single sprite "精灵1" with three scripts; every one of
      them names its project, has at least one sprite, and every sprite has a
      name and at least one script. */
  function Template(k: TemplateKind): (d: Description)
    ensures d.projectName.Some? && d.sprites.Some? && d.backgrounds.Some? && d.events.Some?
    ensures |SpritesOf(d)| >= 1
    ensures forall sd :: sd in SpritesOf(d) ==> sd.name.Some? && |ScriptsOf(sd)| >= 1
    ensures k == GameTemplate ==>
              && d.projectName == Some("简单游戏")
              && |SpritesOf(d)| == 2
              && SpriteName(SpritesOf(d)[0]) == "主角" && |ScriptsOf(SpritesOf(d)[0])| == 4
              && SpriteName(SpritesOf(d)[1]) == "障碍物" && |ScriptsOf(SpritesOf(d)[1])| == 3
    ensures k == AnimationTemplate ==>
              && d.projectName == Some("简单动画")
              && |SpritesOf(d)| == 1 && SpriteName(SpritesOf(d)[0]) == "角色1"
    ensures k == StoryTemplate ==>
              && d.projectName == Some("故事讲述")
              && |SpritesOf(d)| == 1 && SpriteName(SpritesOf(d)[0]) == "讲述者"
    ensures k == GenericTemplate ==>
              && d.projectName == Some("我的项目")
              && |SpritesOf(d)| == 1
              && SpriteName(SpritesOf(d)[0]) == "精灵1" && |ScriptsOf(SpritesOf(d)[0])| == 3
  {
    match k
    case GameTemplate =>
      Description(
        Some("简单游戏"),
        Some([
          NamedSprite("主角", [
            "当绿旗被点击时，移到x:0 y:0",
            "当按下[空格键]，改变y坐标(10)",
            "当按下[左箭头]，将x坐标减少(10)",
            "当按下[右箭头]，将x坐标增加(10)"]),
          NamedSprite("障碍物", [
            "当绿旗被点击时，移到x:200 y:0",
            "当绿旗被点击时，重复执行[将x坐标减少(5)，如果碰到边缘就反弹]",
            "当碰到[主角]，广播[游戏结束]"])]),
        Some(["蓝天"]),
        Some(["当绿旗被点击", "当按下按键", "当碰到边缘"]))
    case AnimationTemplate =>
      Description(
        Some("简单动画"),
        Some([
          NamedSprite("角色1", [
            "当绿旗被点击时，移到x:0 y:0",
            "当绿旗被点击时，重复执行[移动(10)步，如果碰到边缘就反弹]",
            "当绿旗被点击时，重复执行[下一个造型，等待(0.5)秒]"])]),
        Some(["城市"]),
        Some(["当绿旗被点击", "当碰到边缘"]))
    case StoryTemplate =>
      Description(
        Some("故事讲述"),
        Some([
          NamedSprite("讲述者", [
            "当绿旗被点击时，说[从前有一个...]",
            "当绿旗被点击时，等待(3)秒后，说[他遇到了...]",
            "当绿旗被点击时，等待(6)秒后，说[最后...]"])]),
        Some(["森林", "城堡"]),
        Some(["当绿旗被点击", "当背景切换到"]))
    case GenericTemplate =>
      Description(
        Some("我的项目"),
        Some([
          NamedSprite("精灵1", [
            "当绿旗被点击时，移到x:0 y:0",
            "当绿旗被点击时，说[Hello!]",
            "当被点击时，播放声音[喵]直到播放完毕"])]),
        Some(["白色背景"]),
        Some(["当绿旗被点击", "当被点击"]))
  }

  /** `_get_default_project_template(text)`: the description of the kind the
      keywords select. */
  function DefaultTemplate(text: string): (d: Description)
    ensures d == Template(ClassifyText(text))
    ensures |SpritesOf(d)| >= 1
  {
    Template(ClassifyText(text))
  }

  /** A text with a game keyword gets the game description whatever other
      keywords it holds ("游戏" in any position, "game" in any letter case). */
  lemma GameKeywordWins(text: string, spelling: string)
    requires Contains(text, "游戏")
             || (|spelling| == 4 && Contains(text, spelling)
                 && forall j :: 0 <= j < 4 ==> LowerChar(spelling[j]) == "game"[j])
    ensures ClassifyText(text) == GameTemplate
    ensures DefaultTemplate(text).projectName == Some("简单游戏")
  {
    if Contains(text, "游戏") {
      ContainsLowerNoLetters(text, "游戏");
    } else {
      ContainsLowered(text, spelling, "game");
    }
  }

  /** A text whose animation keyword is "动画" and that has no game keyword gets
      the animation description, even if it also speaks of a story. */
  lemma AnimationBeforeStory(text: string)
    requires Contains(text, "动画") && !HasGameKeyword(ToLower(text))
    ensures ClassifyText(text) == AnimationTemplate
  {
    ContainsLowerNoLetters(text, "动画");
  }

  /** The request "创建一个小猫捉老鼠的游戏" holds the game keyword and gets the
      two-sprite game description. */
  lemma CatAndMouseIsGame()
    ensures ClassifyText("创建一个小猫捉老鼠的游戏") == GameTemplate
    ensures |SpritesOf(DefaultTemplate("创建一个小猫捉老鼠的游戏"))| == 2
  {
    var text := "创建一个小猫捉老鼠的游戏";
    assert OccursAt(text, "游戏", 10);
    GameKeywordWins(text, "");
  }

  /** The request "画一只小猫" holds no keyword of any family and gets the generic
      one-sprite description. */
  lemma DrawACatIsGeneric()
    ensures ClassifyText("画一只小猫") == GenericTemplate
    ensures SpriteName(SpritesOf(DefaultTemplate("画一只小猫"))[0]) == "精灵1"
  {
    var text := "画一只小猫";
    var l := ToLower(text);
    assert l == text;
    NotContainsFirstChar(l, "游戏");
    NotContainsFirstChar(l, "game");
    NotContainsFirstChar(l, "动画");
    NotContainsFirstChar(l, "animation");
    NotContainsFirstChar(l, "故事");
    NotContainsFirstChar(l, "story");
  }
}
