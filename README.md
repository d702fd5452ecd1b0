# youth_coder core, modelled in Dafny

youth_coder helps children program. This project models the two parts of it that compute something:

- **Text to Scratch** (`speech_to_scratch/text_to_scratch.py`) turns a sentence such as "创建一个小猫捉老鼠的游戏" into a Scratch 3 project.
  - When a language model is loaded, the model writes a JSON project description. The converter keeps the text after the last `[|AI|]:` marker, strips it, cuts out the part from the first `{` to the last `}`, and decodes that.
  - Otherwise, or when that fails, a keyword classifier picks one of four built-in descriptions: game, animation, story or generic.
  - The description is compiled into a project: one stage, then one sprite per described sprite. Each sprite gets one top-level block per script sentence. The block is keyed `block_i`, is a green-flag hat when the sentence contains "绿旗" and a key-press hat otherwise, and sits at y = 100·i.
- **Code animator** (`code_visualization/code_animator.py`) analyses a Python program and picks a visualisation.
  - The analysis puts the program's assignments' plain names, function names, loop lines, `if` lines and binary-operation lines into five lists.
  - The visualisation is sorting, search or general, chosen from those lists and the code text.
  - It falls back to a placeholder ("dummy") animation whenever analysis, configuration or rendering fails.

Modules, one file each:

| file | module | contents |
|---|---|---|
| `wrappers.dfy` | `Wrappers` | `Option` |
| `text_ops.dfy` | `TextOps` | the Python string operations the core uses: `in`, `find`, `rfind`, `split(sep)[-1]`, `strip()`, `lower()`, `str(int)` |
| `project_description.dfy` | `ProjectDescription` | the intermediate description, the keyword classifier, the four built-in descriptions |
| `response_extraction.dfy` | `ResponseExtraction` | the cutting of the model's reply down to the text given to the JSON decoder |
| `scratch_project.dfy` | `ScratchProject` | blocks, stage, sprites, the project, the sprite count the web front ends show |
| `converter.dfy` | `Converter` | the class `TextToScratchConverter`: constructor, description generation (as written and corrected), `convert` |
| `code_animator.dfy` | `CodeAnimator` | syntax nodes, the analysis, the choice of visualisation, the class `CodeAnimator` |

The source's loops are `method`s with `for` loops: `CreateBlocks`, `CreateScratchProject` and `AnalyzeCode`. Each is proved equal to a specification function, and the properties are proved about that function. Objects whose fields the source sets are classes: `TextToScratchConverter`, `CodeAnimator`, and `RenderConfig` for the renderer's global configuration.

Things outside the program are parameters:

- whether a library imported;
- whether loading the model or configuring the renderer raised;
- the model's decoded reply (`None` when generation raised);
- `json.loads`, as `decode: string -> Decoded`;
- the nodes `ast.walk(ast.parse(code))` yields (`None` when parsing raised);
- whether rendering produced a video.

## Model

| member | source | states |
|---|---|---|
| `TextOps.Find` | speech_to_scratch/text_to_scratch.py:123 | `find('{')` is -1 exactly when there is no `{`, and otherwise is the index of the first `{` |
| `TextOps.RFind` | speech_to_scratch/text_to_scratch.py:124 | `rfind('}')` is -1 exactly when there is no `}`, and otherwise is the index of the last `}` |
| `TextOps.SplitLast` | speech_to_scratch/text_to_scratch.py:121 | `split(sep)[-1]` is a suffix with no separator in it. It is the whole text when the separator is absent. Otherwise a separator ends right before it |
| `TextOps.LastPieceStart` | speech_to_scratch/text_to_scratch.py:121 | cutting left to right, the last piece starts after an occurrence of the separator, or at the start when none was cut, and no separator occurs from there on |
| `TextOps.LastPieceFacts` | speech_to_scratch/text_to_scratch.py:121 | the piece after the last cut holds no separator, and a cut happened exactly when the separator occurs |
| `TextOps.SplitLastAfterSeparator` | speech_to_scratch/text_to_scratch.py:121 | after a separator, a text with no separator in it is exactly the last piece |
| `TextOps.Strip` | speech_to_scratch/text_to_scratch.py:121 | `strip()` is the slice of its input that starts after the leading whitespace (Python's `isspace` set). What it removes on either side is all whitespace, and it neither starts nor ends with whitespace |
| `TextOps.StripUnchanged` | speech_to_scratch/text_to_scratch.py:121 | a text with no surrounding whitespace is unchanged by `strip()` |
| `TextOps.ToLower` | speech_to_scratch/text_to_scratch.py:152 | `lower()` keeps the length and lowers each character on its own |
| `TextOps.ContainsLowerNoLetters` | speech_to_scratch/text_to_scratch.py:152-155 | a keyword without ASCII letters ("游戏") occurs in the lowered text exactly when it occurs in the text |
| `TextOps.ContainsLowered` | speech_to_scratch/text_to_scratch.py:152-155 | any spelling of a keyword that lowers to it ("GAME", "Game") makes the keyword occur in the lowered text |
| `TextOps.NatToString` | speech_to_scratch/text_to_scratch.py:339 | `str(i)` is a non-empty run of decimal digits with no leading zero |
| `TextOps.ParseNatToString` | speech_to_scratch/text_to_scratch.py:339 | reading back `str(i)` gives `i` |
| `TextOps.NatToStringInjective` | speech_to_scratch/text_to_scratch.py:339 | different numbers have different decimal texts |
| `ProjectDescription.ClassifyText` | speech_to_scratch/text_to_scratch.py:152-212 | the game family wins whenever present, then animation, then story, otherwise generic. Each kind is stated as an if-and-only-if on the lowered text |
| `ProjectDescription.Template` | speech_to_scratch/text_to_scratch.py:155-228 | each built-in description names its project and has at least one sprite, and every sprite has a name and a script. Game: "简单游戏" with "主角" (4 scripts) and "障碍物" (3 scripts). Animation: "角色1". Story: "讲述者". Generic: "精灵1" with 3 scripts |
| `ProjectDescription.DefaultTemplate` | speech_to_scratch/text_to_scratch.py:141-228 | the template of the kind the keywords select; never without a sprite |
| `ProjectDescription.GameKeywordWins` | speech_to_scratch/text_to_scratch.py:152-155 | "游戏" anywhere, or "game" in any letter case, gives the game description, whatever else the text says |
| `ProjectDescription.AnimationBeforeStory` | speech_to_scratch/text_to_scratch.py:180-196 | "动画" without a game keyword gives the animation description even when a story keyword is present |
| `ProjectDescription.CatAndMouseIsGame` | speech_to_scratch/text_to_scratch.py:155-179 | "创建一个小猫捉老鼠的游戏" gets the two-sprite game description |
| `ProjectDescription.DrawACatIsGeneric` | speech_to_scratch/text_to_scratch.py:212-228 | "画一只小猫" matches no family and gets "精灵1" |
| `ResponseExtraction.StrippedTail` | speech_to_scratch/text_to_scratch.py:121 | without a marker, the whole reply stripped. With one, the stripped text after an occurrence of the marker that has no marker after it |
| `ResponseExtraction.JsonSpan` | speech_to_scratch/text_to_scratch.py:123-127 | with no `{`, the candidate itself. With one, empty exactly when no `}` follows the first `{`. Otherwise the slice from the first `{` to the last `}` |
| `ResponseExtraction.JsonSpanPiece` | speech_to_scratch/text_to_scratch.py:123-127 | the span is a contiguous piece of the candidate |
| `ResponseExtraction.ExtractJsonInTail` | speech_to_scratch/text_to_scratch.py:121-127 | the text handed to `json.loads` is a contiguous piece of the reply after the last marker, or of the whole reply when the marker is absent |
| `ResponseExtraction.ExtractJsonWithoutBrace` | speech_to_scratch/text_to_scratch.py:121-127 | when the stripped text after the last marker has no `{`, that text is handed on whole. With neither marker nor `{`, the stripped reply is handed on |
| `ResponseExtraction.ExtractJsonBraces` | speech_to_scratch/text_to_scratch.py:121-127 | a handed-on text that holds a `{` starts with `{` and ends with `}` |
| `ResponseExtraction.UnclosedBraceGivesEmptyText` | speech_to_scratch/text_to_scratch.py:123-127 | a `{` without a `}` gives the empty text: the `end_index != -1` guard never fires |
| `ScratchProject.BlockIdInjective` | speech_to_scratch/text_to_scratch.py:339 | `block_i` and `block_j` are equal only when `i == j` |
| `ScratchProject.BlockIdsDistinct` | speech_to_scratch/text_to_scratch.py:339 | no two script indices share a block id |
| `ScratchProject.BlockIdsCount` | speech_to_scratch/text_to_scratch.py:339-343 | `n` scripts give exactly `n` distinct ids |
| `ScratchProject.BlockIdsSnoc` | speech_to_scratch/text_to_scratch.py:339 | one more script adds exactly its own id |
| `ScratchProject.EarlierIdsDiffer` | speech_to_scratch/text_to_scratch.py:339 | the id of script `n` differs from the id of every earlier script, so a later block never overwrites an earlier one |
| `ScratchProject.BlocksOfKeys` | speech_to_scratch/text_to_scratch.py:333-355 | the keys of the blocks are exactly `block_0` … `block_{n-1}` |
| `ScratchProject.BlocksOfValues` | speech_to_scratch/text_to_scratch.py:341-353 | block `block_i` is present and is the block made from sentence `i` |
| `ScratchProject.BlocksOfUnlinked` | speech_to_scratch/text_to_scratch.py:345-346 | no block has a `next` or `parent` link |
| `ScratchProject.BlocksOfShape` | speech_to_scratch/text_to_scratch.py:341-353 | one block per sentence. Green-flag opcode exactly when the sentence contains "绿旗", key-press opcode otherwise. At (0, 100·i). Unlinked, top level, not a shadow, no inputs or fields |
| `ScratchProject.BlocksOfSnoc` | speech_to_scratch/text_to_scratch.py:341-353 | one more sentence adds its block under a key not used before, so every earlier block is kept |
| `ScratchProject.CreateBlocks` | speech_to_scratch/text_to_scratch.py:333-355 | the loop builds exactly `BlocksOf(scripts)` |
| `ScratchProject.CreateStage` | speech_to_scratch/text_to_scratch.py:266-296 | the same stage whatever the backgrounds: named "Stage", no blocks, the one backdrop costume, selected |
| `ScratchProject.SpriteForShape` | speech_to_scratch/text_to_scratch.py:298-331 | the sprite target is not a stage. Named as described, or "Sprite" when the name is missing. One block per script sentence, none when the scripts are missing. One costume. At (0, 0), size 100, direction 90, visible, not draggable, rotates all around |
| `ScratchProject.CreateSprite` | speech_to_scratch/text_to_scratch.py:298-331 | builds exactly `SpriteFor(sd)` |
| `ScratchProject.SpriteTargets` | speech_to_scratch/text_to_scratch.py:259-261 | one sprite target per description, in order |
| `ScratchProject.SpriteTargetsSnoc` | speech_to_scratch/text_to_scratch.py:259-261 | one more description appends its sprite and keeps the earlier ones |
| `ScratchProject.AfterStage` | speech_to_scratch/text_to_scratch.py:255-261 | behind the stage, target `i + 1` is the sprite of description `i`, and no later target is a stage |
| `ScratchProject.SpriteTargetsLinksResolve` | speech_to_scratch/text_to_scratch.py:298-331 | no built sprite has a block link that dangles |
| `ScratchProject.CompiledTargetsValid` | speech_to_scratch/text_to_scratch.py:230-264 | the stage followed by the built sprites is a valid project: one stage, first, and every link resolves |
| `ScratchProject.Compile` | speech_to_scratch/text_to_scratch.py:230-264 | the project is valid: the stage comes first and is the only stage, and every block link resolves. It has 1 + (number of sprites) targets, with sprites in described order. No monitors, no extensions, and the fixed meta |
| `ScratchProject.CreateScratchProject` | speech_to_scratch/text_to_scratch.py:230-264 | the loop builds exactly `Compile(desc)` |
| `ScratchProject.SpriteCountNoStage` | app.py:195 | counting non-stage targets counts every target of a stage-free list |
| `ScratchProject.SpriteCountOfCompile` | api.py:70 | the sprite count reported for a compiled project equals the number of described sprites |
| `ScratchProject.GameProjectShape` | speech_to_scratch/text_to_scratch.py:155-179 | the game description compiles to 3 targets, 2 of them sprites, "主角" then "障碍物" |
| `ScratchProject.GenericProjectShape` | speech_to_scratch/text_to_scratch.py:212-228 | the generic description compiles to one sprite with three blocks, keyed `block_0`, `block_1` and `block_2` |
| `Converter.TextToScratchConverter.constructor` | speech_to_scratch/text_to_scratch.py:30-61 | device "cuda:0" or "cpu". The model is loaded exactly when the library imported and loading raised nothing. Simulation is on exactly when it is not loaded |
| `Converter.TextToScratchConverter.GenerateAsWritten` | speech_to_scratch/text_to_scratch.py:93-139 | as written: a non-object value comes back exactly when a model is in use and the extracted answer decodes to a non-object. Without a model or reply, or when the answer does not decode, the template comes back. A decoded object comes back unchanged |
| `Converter.TextToScratchConverter.ConvertAsWritten` | speech_to_scratch/text_to_scratch.py:63-81 | as written, within the modelled description shape: fails (the escaping AttributeError) exactly when generation passed on a non-object. Otherwise it returns the compiled description. Ill-typed fields, which also make `convert` raise, are outside that shape |
| `Converter.TextToScratchConverter.GenerateDescription` | speech_to_scratch/text_to_scratch.py:93-139 | with the correction: the result is the template or the decoded object. It is the template without a model, when generation raised, or when the answer is not an object. It is the object when the answer is one |
| `Converter.TextToScratchConverter.Convert` | speech_to_scratch/text_to_scratch.py:63-81 | with the correction: never fails. Builds `Compile` of the description, which is a valid project whose sprite count equals the number of described sprites. At least one sprite whenever the template was used. No sprite exactly when the model's answer is an object that describes no sprite |
| `Converter.NonObjectAnswerPassesThrough` | speech_to_scratch/text_to_scratch.py:121-131 | after the marker, a marker-free, brace-free, unpadded answer that decodes to a non-object (a number, a string, an array, …) is passed on unchecked |
| `Converter.NumberAnswerEscapes` | speech_to_scratch/text_to_scratch.py:129-131 | the reply "[\|AI\|]:42" makes the as-written generation return a non-object |
| `Converter.NonObjectAnswerFallsBack` | speech_to_scratch/text_to_scratch.py:129-139 | with the correction, a non-object answer gives the template |
| `Converter.UnclosedBraceFallsBack` | speech_to_scratch/text_to_scratch.py:123-137 | an answer with `{` and no `}` decodes the empty text and falls back to the template |
| `Converter.EmptyObjectExtracted` | speech_to_scratch/text_to_scratch.py:121-129 | the reply "[\|AI\|]:{}" hands "{}" to the decoder |
| `Converter.EmptyObjectGivesNoSprites` | speech_to_scratch/text_to_scratch.py:129-131 | with a model, the answer `{}` compiles to a project holding only the stage: no template is substituted |
| `Converter.CatAndMouseEndToEnd` | speech_to_scratch/text_to_scratch.py:63-81 | without a model, "创建一个小猫捉老鼠的游戏" becomes a project with sprites "主角" and "障碍物" |
| `Converter.NoKeywordEndToEnd` | speech_to_scratch/text_to_scratch.py:63-81 | without a model, "画一只小猫" becomes a project with the single sprite "精灵1" |
| `CodeAnimator.NameIds` | code_visualization/code_animator.py:72-75 | exactly the ids of the plain-name targets, never more names than targets |
| `CodeAnimator.NameIdsSnoc` | code_visualization/code_animator.py:73-75 | one more target appends its id when it is a plain name, and nothing otherwise |
| `CodeAnimator.NameIdsConcat` | code_visualization/code_animator.py:73-75 | the ids of two runs of targets are those of the first run followed by those of the second, so order and repetitions are kept |
| `CodeAnimator.NodeAnalysis` | code_visualization/code_animator.py:71-83 | a node adds to at most one list (the `elif` chain), and at most one entry outside the variables. Variables come exactly from an assignment with a plain-name target, functions exactly from a definition, loops exactly from `for`/`while`, conditionals exactly from `if` and operations exactly from a binary operation |
| `CodeAnimator.AnalysisOfSnoc` | code_visualization/code_animator.py:71-83 | one more node joins its contribution to the analysis so far |
| `CodeAnimator.AnalysisOfConcat` | code_visualization/code_animator.py:71-83 | analysing two runs of nodes in turn joins their analyses list by list |
| `CodeAnimator.AtMostOneEntryPerNode` | code_visualization/code_animator.py:71-83 | there are no more function, loop, conditional and operation entries together than nodes |
| `CodeAnimator.VariablesAreAssignedNames` | code_visualization/code_animator.py:72-75 | a name is a recorded variable exactly when some assignment has it as a plain-name target |
| `CodeAnimator.FunctionsAreDefinedNames` | code_visualization/code_animator.py:76-77 | a name is a recorded function exactly when some function definition has it |
| `CodeAnimator.LoopsAreLoopLines` | code_visualization/code_animator.py:78-79 | a line is a recorded loop exactly when some `for` or `while` statement is on it |
| `CodeAnimator.ConditionalsAreIfLines` | code_visualization/code_animator.py:80-81 | a line is a recorded conditional exactly when some `if` statement is on it |
| `CodeAnimator.OperationsAreBinOpLines` | code_visualization/code_animator.py:82-83 | a line is a recorded operation exactly when some binary operation is on it |
| `CodeAnimator.AppendNames` | code_visualization/code_animator.py:72-75 | the inner loop appends exactly the plain-name target ids, in order |
| `CodeAnimator.AnalyzeCode` | code_visualization/code_animator.py:45-92 | `None` exactly when parsing failed. Otherwise the loop builds exactly `AnalysisOf(nodes)` |
| `CodeAnimator.AnyListLikeName` | code_visualization/code_animator.py:284 | the `any(...)` over variables holds exactly when some variable contains "list" or "arr" once lowered. The truthiness of the name itself never matters |
| `CodeAnimator.AnySearchLikeName` | code_visualization/code_animator.py:287 | the `any(...)` over functions holds exactly when some function name contains "search" once lowered |
| `CodeAnimator.ChooseAnimation` | code_visualization/code_animator.py:272-292 | sorting exactly when the lowered code contains "sort" or some variable is list-like. Search exactly when not sorting and some function is search-like. General otherwise |
| `CodeAnimator.SortMentionWins` | code_visualization/code_animator.py:284-286 | "sort" in any letter case in the code gives the sorting visualisation whatever the function names |
| `CodeAnimator.PixelSize` | code_visualization/code_animator.py:39-40 | 1080 × 1920 for "1080p", 720 × 1280 for anything else. Always 16:9 |
| `CodeAnimator.RenderConfig.constructor` | code_visualization/code_animator.py:39-40 | a configuration holding the given height and width |
| `CodeAnimator.CodeAnimator.constructor` | code_visualization/code_animator.py:24-43 | simulation is on exactly when the renderer is missing or configuring it raised. On success the configuration gets `PixelSize(resolution)`. On failure it is unchanged |
| `CodeAnimator.CodeAnimator.CreateAnimation` | code_visualization/code_animator.py:94-160 | the dummy animation when analysis failed or simulation is on. A rendered animation exactly when analysis succeeded, simulation is off and rendering produced a video, and then of the kind `ChooseAnimation` picks |

## Left out

- Loading the tokenizer and model, building the prompt and sampling are left out. The model's decoded output is a parameter, `None` when any of it raised.
- `json.loads` is a parameter. A decoded object is taken to have the described shape (`Description`). A decoded object whose fields have other types (a number for "sprites", say) is not modelled. A JSON `null` is treated like a missing key. In the code, `.get` returns `None` for a key that is present with `null`, so the default is not used (see the `ConvertAsWritten` line below).
- Dictionary key order in the built project is not modelled: blocks are a `map`.
- The always-empty fields of targets are not modelled: `variables`, `lists`, `broadcasts`, `comments`, `sounds`.
- `save_project`, and the file I/O and logging of both core files, are left out.
- `ast.parse` and `ast.walk` are not part of this model. The nodes, in the order `ast.walk` visits them, are a parameter. Node kinds the analysis ignores (`AugAssign`, `AnnAssign`, `AsyncFunctionDef`, `AsyncFor`, …) are `OtherNode`.
- Rendering with manim, the temporary files, the generated animation scripts (`_generate_sorting_animation`, `_generate_search_animation`, `_generate_general_animation`) and `_create_dummy_animation` are left out. The result only says which visualisation was rendered or that the dummy was used. "Rendering produced a video" is a parameter, and an exception during rendering counts as no video.
- `CodeAnimator.CodeAnimator.constructor`: a configuration failure is taken to happen before the first assignment. A failure after setting only the height is not modelled.
- `TextOps.ToLower`: lowers ASCII letters only. Python also lowers other scripts, but the only non-ASCII characters whose lowercase contains an ASCII letter are U+212A (to "k") and U+0130 (to "i" followed by U+0307). Neither can complete a match of "game", "animation", "story", "sort", "list", "arr" or "search", so every keyword test agrees with Python's.
- When the `[|AI|]:` marker is missing, the code strips and decodes the whole reply rather than treating the reply as unusable (`ResponseExtraction.StrippedTail`).
- `_create_stage` receives the described backgrounds and ignores them: every project gets the same stage (`ScratchProject.CreateStage`).
- A decoded object without a "sprites" key, or with an empty list, compiles to a project holding only the stage. The code has no fallback for it, and the model follows the code. `Converter.TextToScratchConverter.Convert` therefore promises at least one sprite only when the template is used, and states exactly when there is none. `Converter.EmptyObjectGivesNoSprites` shows the case.
- `Converter.TextToScratchConverter.ConvertAsWritten`: fails only on a non-object answer. `convert` also raises on ill-typed fields, which the model does not represent. These are `"sprites": null` (iterating `None` at speech_to_scratch/text_to_scratch.py:259), a sprite entry that is not an object (`.get` at :303) and `"scripts": null` (iterating `None` at :341).

## Findings

| source | as written | input that shows it | evidently intended | confidence | as-written member | corrected member |
|---|---|---|---|---|---|---|
| speech_to_scratch/text_to_scratch.py:129-131, 255 | whatever `json.loads` returns is passed on, even a value that is not a dictionary. `_create_scratch_project` then calls `.get` on it outside any `try`, so `convert` raises `AttributeError` | a loaded model whose reply is `[\|AI\|]:42` (decodes to the number 42) | a reply that is not a JSON object falls back to the keyword template like any other unusable reply | not executed | `Converter.NumberAnswerEscapes` (with `Converter.TextToScratchConverter.ConvertAsWritten`) | `Converter.NonObjectAnswerFallsBack` (with `Converter.TextToScratchConverter.GenerateDescription`) |
