/** The compiled Scratch 3 project and the builder that produces it from an
    intermediate description (`_create_scratch_project`, `_create_stage`,
    `_create_sprite`, `_create_blocks`), with the metric `sprite_count` that
    callers compute from the targets. */
module ScratchProject {
  import opened Wrappers
  import opened TextOps
  import opened ProjectDescription

  /** The opcode of a script whose sentence mentions the green flag. */
  const FlagClickedOpcode: string := "event_whenflagclicked"
  /** The opcode of every other script. */
  const KeyPressedOpcode: string := "event_whenkeypressed"
  /** The vertical distance between two consecutive blocks of a sprite. */
  const BlockSpacing: int := 100

  /** One block of a sprite's "blocks" dictionary. */
  datatype Block = Block(
    opcode: string,
    next: Option<string>,
    parent: Option<string>,
    inputs: map<string, string>,
    fields: map<string, string>,
    shadow: bool,
    topLevel: bool,
    x: int,
    y: int)

  /** One entry of a target's "costumes" list. */
  datatype Costume = Costume(
    assetId: string,
    name: string,
    bitmapResolution: Option<int>,
    md5ext: string,
    dataFormat: string,
    rotationCenterX: int,
    rotationCenterY: int)

  /** A target: the stage or a sprite. */
  datatype Target =
    | StageTarget(
        name: string,
        blocks: map<string, Block>,
        currentCostume: int,
        costumes: seq<Costume>,
        volume: int,
        layerOrder: int,
        tempo: int,
        videoTransparency: int,
        videoState: string,
        textToSpeechLanguage: Option<string>)
    | SpriteTarget(
        name: string,
        blocks: map<string, Block>,
        currentCostume: int,
        costumes: seq<Costume>,
        volume: int,
        visible: bool,
        x: int,
        y: int,
        size: int,
        direction: int,
        draggable: bool,
        rotationStyle: string)
  {
    /** The "isStage" key. */
    predicate IsStage()
    {
      StageTarget?
    }
  }

  datatype Meta = Meta(semver: string, vm: string, agent: string)

  /** The whole project: "targets", "monitors", "extensions" and "meta". */
  datatype Project = Project(
    targets: seq<Target>,
    monitors: seq<string>,
    extensions: seq<string>,
    meta: Meta)

  const ConverterMeta: Meta := Meta("3.0.0", "0.2.0", "Python Scratch Converter")

  const BackdropCostume: Costume :=
    Costume("cd21514d0531fdffb22204e0ec5ed84a", "背景1", None,
            "cd21514d0531fdffb22204e0ec5ed84a.svg", "svg", 240, 180)

  const SpriteCostume: Costume :=
    Costume("bcf454acf82e4504149f7ffe07081dbc", "造型1", Some(1),
            "bcf454acf82e4504149f7ffe07081dbc.svg", "svg", 48, 50)

  /** The one stage every project gets. */
  const DefaultStage: Target :=
    StageTarget("Stage", map[], 0, [BackdropCostume], 100, 0, 60, 50, "on", None)

  /** `f"block_{i}"`. */
  function BlockId(i: nat): string
  {
    "block_" + NatToString(i)
  }

  /** Distinct script indices give distinct block ids. */
  lemma BlockIdInjective(i: nat, j: nat)
    requires BlockId(i) == BlockId(j)
    ensures i == j
  {
    assert NatToString(i) == BlockId(i)[6..];
    assert NatToString(j) == BlockId(j)[6..];
    NatToStringInjective(i, j);
  }

  /** `BlockIdInjective` for all pairs of indices at once. */
  lemma BlockIdsDistinct()
    ensures forall i: nat, j: nat :: BlockId(i) == BlockId(j) ==> i == j
  {
    forall i: nat, j: nat | BlockId(i) == BlockId(j) ensures i == j {
      BlockIdInjective(i, j);
    }
  }

  /** The ids of the first `n` scripts. */
  function BlockIds(n: nat): set<string>
  {
    set i | 0 <= i < n :: BlockId(i)
  }

  /** One more script adds its id. */
  lemma BlockIdsSnoc(n: nat)
    ensures BlockIds(n + 1) == BlockIds(n) + {BlockId(n)}
  {
  }

  /** There are exactly `n` of them: no two scripts share an id. */
  lemma {:induction false} BlockIdsCount(n: nat)
    ensures |BlockIds(n)| == n
  {
    if n > 0 {
      BlockIdsCount(n - 1);
      BlockIdsSnoc(n - 1);
      EarlierIdsDiffer(n - 1);
    }
  }

  /** The block made for the sentence at index `i`. */
  function ScriptBlock(i: nat, script: string): Block
  {
    Block(if Contains(script, "绿旗") then FlagClickedOpcode else KeyPressedOpcode,
          None, None, map[], map[], false, true, 0, i * BlockSpacing)
  }

  /** Block ids of earlier scripts differ from the id of script `n`. */
  lemma EarlierIdsDiffer(n: nat)
    ensures forall i :: 0 <= i < n ==> BlockId(i) != BlockId(n)
  {
    forall i | 0 <= i < n ensures BlockId(i) != BlockId(n) {
      if BlockId(i) == BlockId(n) {
        BlockIdInjective(i, n);
      }
    }
  }

  /** The blocks of a sprite with these script sentences, added one sentence
      at a time. */
  function BlocksOf(scripts: seq<string>): map<string, Block>
  {
    if scripts == [] then map[]
    else
      var n := |scripts| - 1;
      BlocksOf(scripts[..n])[BlockId(n) := ScriptBlock(n, scripts[n])]
  }

  /** The keys are exactly `block_0` .. `block_{n-1}`. */
  lemma {:induction false} BlocksOfKeys(scripts: seq<string>)
    ensures BlocksOf(scripts).Keys == BlockIds(|scripts|)
  {
    if scripts == [] {
      assert BlockIds(0) == {};
    } else {
      var n := |scripts| - 1;
      BlocksOfKeys(scripts[..n]);
      BlockIdsSnoc(n);
    }
  }

  /** Block `i` is made from sentence `i`: no later sentence overwrites an
      earlier block. */
  lemma {:induction false} BlocksOfValues(scripts: seq<string>)
    ensures forall i :: 0 <= i < |scripts| ==> BlockId(i) in BlocksOf(scripts)
    ensures forall i :: 0 <= i < |scripts| ==> BlocksOf(scripts)[BlockId(i)] == ScriptBlock(i, scripts[i])
  {
    if scripts != [] {
      var n := |scripts| - 1;
      var earlier := scripts[..n];
      var blocks := BlocksOf(scripts);
      assert blocks == BlocksOf(earlier)[BlockId(n) := ScriptBlock(n, scripts[n])];
      BlocksOfValues(earlier);
      forall i | 0 <= i < |scripts|
        ensures BlockId(i) in blocks && blocks[BlockId(i)] == ScriptBlock(i, scripts[i])
      {
        if i < n {
          if BlockId(i) == BlockId(n) {
            BlockIdInjective(i, n);
          }
          assert earlier[i] == scripts[i];
        }
      }
    }
  }

  /** No block links to another. */
  lemma {:induction false} BlocksOfUnlinked(scripts: seq<string>)
    ensures forall id :: id in BlocksOf(scripts) ==>
              BlocksOf(scripts)[id].next == None && BlocksOf(scripts)[id].parent == None
  {
    if scripts != [] {
      BlocksOfUnlinked(scripts[..|scripts| - 1]);
    }
  }

  /** Exactly one block per sentence, keyed `block_0` .. `block_{n-1}`; block
      `i` starts a script on the green flag when sentence `i` contains "绿旗"
      and on a key press otherwise, sits at (0, 100 * i), and is an unlinked,
      top-level block with no inputs and no fields. */
  lemma BlocksOfShape(scripts: seq<string>)
    ensures |BlocksOf(scripts)| == |scripts|
    ensures forall i :: 0 <= i < |scripts| ==>
              && BlockId(i) in BlocksOf(scripts)
              && (BlocksOf(scripts)[BlockId(i)].opcode == FlagClickedOpcode <==> Contains(scripts[i], "绿旗"))
              && (BlocksOf(scripts)[BlockId(i)].opcode == KeyPressedOpcode <==> !Contains(scripts[i], "绿旗"))
              && BlocksOf(scripts)[BlockId(i)].x == 0
              && BlocksOf(scripts)[BlockId(i)].y == i * BlockSpacing
    ensures forall id :: id in BlocksOf(scripts) ==>
              && BlocksOf(scripts)[id].next == None && BlocksOf(scripts)[id].parent == None
              && BlocksOf(scripts)[id].topLevel && !BlocksOf(scripts)[id].shadow
              && BlocksOf(scripts)[id].inputs == map[] && BlocksOf(scripts)[id].fields == map[]
  {
    BlockIdsCount(|scripts|);
    BlocksOfKeys(scripts);
    BlocksOfValues(scripts);
    var blocks := BlocksOf(scripts);
    assert |blocks| == |blocks.Keys|;
    forall id | id in blocks
      ensures blocks[id].next == None && blocks[id].parent == None
      ensures blocks[id].topLevel && !blocks[id].shadow
      ensures blocks[id].inputs == map[] && blocks[id].fields == map[]
    {
      var k :| 0 <= k < |scripts| && BlockId(k) == id;
    }
  }

  /** Adding the next sentence adds its block and keeps the earlier ones. */
  lemma BlocksOfSnoc(scripts: seq<string>, i: nat)
    requires i < |scripts|
    ensures BlocksOf(scripts[..i + 1]) == BlocksOf(scripts[..i])[BlockId(i) := ScriptBlock(i, scripts[i])]
    ensures BlockId(i) !in BlocksOf(scripts[..i])
  {
    assert scripts[..i + 1][..i] == scripts[..i];
    BlocksOfKeys(scripts[..i]);
    EarlierIdsDiffer(i);
  }

  /** `_create_blocks(scripts)`: fills the dictionary one sentence at a time. */
  method CreateBlocks(scripts: seq<string>) returns (blocks: map<string, Block>)
    ensures blocks == BlocksOf(scripts)
  {
    blocks := map[];
    for i := 0 to |scripts|
      invariant blocks == BlocksOf(scripts[..i])
    {
      BlocksOfSnoc(scripts, i);
      blocks := blocks[BlockId(i) := ScriptBlock(i, scripts[i])];
    }
    assert scripts[..|scripts|] == scripts;
  }

  /** `_create_stage(backgrounds)`: the same stage whatever the backgrounds. */
  function CreateStage(backgrounds: seq<string>): (t: Target)
    ensures t == DefaultStage
    ensures t.IsStage() && t.name == "Stage" && t.blocks == map[]
    ensures t.costumes == [BackdropCostume] && t.currentCostume == 0
  {
    DefaultStage
  }

  /** The sprite target for one sprite description. */
  function SpriteFor(sd: SpriteDesc): Target
  {
    SpriteTarget(SpriteName(sd), BlocksOf(ScriptsOf(sd)), 0, [SpriteCostume], 100,
                 true, 0, 0, 100, 90, false, "all around")
  }

  /** The sprite target is not the stage; it is named as described or "Sprite"
      when the name is missing; it has one block per script sentence and none
      when "scripts" is missing; one costume; it sits at (0, 0) with size 100,
      points in direction 90, is visible and is not draggable. */
  lemma SpriteForShape(sd: SpriteDesc)
    ensures var t := SpriteFor(sd);
            && !t.IsStage()
            && t.name == (if sd.name.Some? then sd.name.value else "Sprite")
            && t.blocks == BlocksOf(ScriptsOf(sd)) && |t.blocks| == |ScriptsOf(sd)|
            && (sd.scripts.None? ==> t.blocks == map[])
            && t.costumes == [SpriteCostume] && t.currentCostume == 0
            && t.x == 0 && t.y == 0 && t.size == 100 && t.direction == 90
            && t.visible && !t.draggable && t.rotationStyle == "all around"
  {
    BlocksOfShape(ScriptsOf(sd));
  }

  /** `_create_sprite(sprite_desc)`. */
  method CreateSprite(sd: SpriteDesc) returns (t: Target)
    ensures t == SpriteFor(sd)
  {
    var blocks := CreateBlocks(ScriptsOf(sd));
    t := SpriteTarget(SpriteName(sd), blocks, 0, [SpriteCostume], 100,
                      true, 0, 0, 100, 90, false, "all around");
  }

  /** The sprite targets for a list of sprite descriptions, in order. */
  function SpriteTargets(sds: seq<SpriteDesc>): (ts: seq<Target>)
    ensures |ts| == |sds| && forall i :: 0 <= i < |sds| ==> ts[i] == SpriteFor(sds[i])
  {
    if sds == [] then []
    else
      var init := sds[..|sds| - 1];
      var ts := SpriteTargets(init);
      assert forall i :: 0 <= i < |init| ==> (ts + [SpriteFor(sds[|sds| - 1])])[i] == ts[i] && init[i] == sds[i];
      ts + [SpriteFor(sds[|sds| - 1])]
  }

  /** One more sprite description adds its sprite at the end. */
  lemma SpriteTargetsSnoc(sds: seq<SpriteDesc>, i: nat)
    requires i < |sds|
    ensures SpriteTargets(sds[..i + 1]) == SpriteTargets(sds[..i]) + [SpriteFor(sds[i])]
  {
    assert sds[..i + 1][..i] == sds[..i];
  }

  /** Every `next` and `parent` reference names a block of the same target. */
  ghost predicate LinksResolve(t: Target)
  {
    forall id :: id in t.blocks ==>
      && (t.blocks[id].next.Some? ==> t.blocks[id].next.value in t.blocks)
      && (t.blocks[id].parent.Some? ==> t.blocks[id].parent.value in t.blocks)
  }

  /** The structural invariants of a compiled project: the stage comes first
      and is the only stage, and every block link resolves within its target. */
  ghost predicate ValidProject(p: Project)
  {
    && |p.targets| >= 1
    && p.targets[0].IsStage()
    && (forall i :: 1 <= i < |p.targets| ==> !p.targets[i].IsStage())
    && (forall i :: 0 <= i < |p.targets| ==> LinksResolve(p.targets[i]))
  }

  /** The stage followed by the sprites of any descriptions forms a valid
      project. */
  lemma CompiledTargetsValid(sds: seq<SpriteDesc>, monitors: seq<string>, extensions: seq<string>, meta: Meta)
    ensures ValidProject(Project([DefaultStage] + SpriteTargets(sds), monitors, extensions, meta))
  {
    var targets := [DefaultStage] + SpriteTargets(sds);
    AfterStage(DefaultStage, sds);
    SpriteTargetsLinksResolve(sds);
    forall i | 0 <= i < |targets| ensures LinksResolve(targets[i]) {
      if i > 0 {
        assert targets[i] == SpriteTargets(sds)[i - 1];
      }
    }
  }

  /** Behind the stage, target `i + 1` is the sprite of description `i`, and
      no target is a stage. */
  lemma AfterStage(stage: Target, sds: seq<SpriteDesc>)
    ensures forall i :: 0 <= i < |sds| ==> ([stage] + SpriteTargets(sds))[i + 1] == SpriteFor(sds[i])
    ensures forall i :: 1 <= i < |[stage] + SpriteTargets(sds)| ==> !([stage] + SpriteTargets(sds))[i].IsStage()
  {
    var ts := SpriteTargets(sds);
    forall i | 0 <= i < |sds| ensures ([stage] + ts)[i + 1] == SpriteFor(sds[i]) {
      assert ([stage] + ts)[i + 1] == ts[i];
    }
    forall i | 1 <= i < |[stage] + ts| ensures !([stage] + ts)[i].IsStage() {
      assert ([stage] + ts)[i] == ts[i - 1];
    }
  }

  /** The sprites built from descriptions have no dangling block links. */
  lemma SpriteTargetsLinksResolve(sds: seq<SpriteDesc>)
    ensures forall i :: 0 <= i < |sds| ==> LinksResolve(SpriteTargets(sds)[i])
  {
    forall i | 0 <= i < |sds| ensures LinksResolve(SpriteTargets(sds)[i]) {
      BlocksOfUnlinked(ScriptsOf(sds[i]));
    }
  }

  /** The project compiled from a description: the stage, then one sprite per
      described sprite in the described order ("sprites" missing counts as
      empty), no monitors, no extensions and the fixed meta. */
  function Compile(desc: Description): (p: Project)
    ensures ValidProject(p)
    ensures |p.targets| == 1 + |SpritesOf(desc)|
    ensures p.targets[0] == DefaultStage
    ensures forall i :: 0 <= i < |SpritesOf(desc)| ==> p.targets[i + 1] == SpriteFor(SpritesOf(desc)[i])
    ensures p.monitors == [] && p.extensions == [] && p.meta == ConverterMeta
  {
    var sprites := SpriteTargets(SpritesOf(desc));
    var targets := [CreateStage(BackgroundsOf(desc))] + sprites;
    AfterStage(DefaultStage, SpritesOf(desc));
    CompiledTargetsValid(SpritesOf(desc), [], [], ConverterMeta);
    Project(targets, [], [], ConverterMeta)
  }

  /** `_create_scratch_project(project_description)`: appends the stage, then
      each sprite in turn. */
  method CreateScratchProject(desc: Description) returns (p: Project)
    ensures p == Compile(desc)
  {
    var targets := [CreateStage(BackgroundsOf(desc))];
    var sprites := SpritesOf(desc);
    for i := 0 to |sprites|
      invariant targets == [DefaultStage] + SpriteTargets(sprites[..i])
    {
      SpriteTargetsSnoc(sprites, i);
      var sprite := CreateSprite(sprites[i]);
      targets := targets + [sprite];
    }
    assert sprites[..|sprites|] == sprites;
    p := Project(targets, [], [], ConverterMeta);
  }

  /** `sum(1 for target in targets if not target.get("isStage", False))`. */
  function SpriteCount(targets: seq<Target>): nat
  {
    if targets == [] then 0
    else (if targets[0].IsStage() then 0 else 1) + SpriteCount(targets[1..])
  }

  /** A list without a stage counts every element. */
  lemma {:induction false} SpriteCountNoStage(ts: seq<Target>)
    requires forall i :: 0 <= i < |ts| ==> !ts[i].IsStage()
    ensures SpriteCount(ts) == |ts|
  {
    if ts != [] {
      SpriteCountNoStage(ts[1..]);
    }
  }

  /** The sprite count of a compiled project is the number of described
      sprites. */
  lemma SpriteCountOfCompile(desc: Description)
    ensures SpriteCount(Compile(desc).targets) == |SpritesOf(desc)|
  {
    var ts := Compile(desc).targets;
    SpriteCountNoStage(ts[1..]);
  }

  /** Scenario: the game description compiles to the stage and two sprites. */
  lemma GameProjectShape()
    ensures |Compile(Template(GameTemplate)).targets| == 3
    ensures SpriteCount(Compile(Template(GameTemplate)).targets) == 2
    ensures Compile(Template(GameTemplate)).targets[1].name == "主角"
    ensures Compile(Template(GameTemplate)).targets[2].name == "障碍物"
  {
    SpriteCountOfCompile(Template(GameTemplate));
  }

  /** Scenario: the generic description compiles to the stage and one sprite
      whose three blocks are `block_0`, `block_1` and `block_2`. */
  lemma GenericProjectShape()
    ensures SpriteCount(Compile(Template(GenericTemplate)).targets) == 1
    ensures |Compile(Template(GenericTemplate)).targets[1].blocks| == 3
    ensures Compile(Template(GenericTemplate)).targets[1].blocks.Keys == BlockIds(3)
  {
    SpriteCountOfCompile(Template(GenericTemplate));
    var sd := SpritesOf(Template(GenericTemplate))[0];
    BlocksOfShape(ScriptsOf(sd));
    SpriteForShape(sd);
    BlocksOfKeys(ScriptsOf(sd));
  }
}
