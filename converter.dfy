/** The text-to-Scratch converter object (`TextToScratchConverter`): the model
    state its constructor sets up, the choice between the model's answer and
    the keyword template, and `convert`.  Loading the model, running it and
    `json.loads` are outside the model: the constructor receives whether the
    library imported and whether loading worked, `reply` is the decoded model
    output (None when the tokenizer or the model raised), and `decode` stands
    for `json.loads`. */
module Converter {
  import opened Wrappers
  import opened TextOps
  import opened ProjectDescription
  import opened ResponseExtraction
  import opened ScratchProject

  /** What `json.loads` makes of a text: an error, a JSON value that is not an
      object (a number, a string, a list, ...), or an object. */
  datatype Decoded = DecodeError | NonObject | Object(desc: Description)

  /** What `_generate_project_description` returns as written: a description,
      or the non-object JSON value it passed on unchecked. */
  datatype Generated = Described(desc: Description) | NonObjectValue

  class TextToScratchConverter {
    const modelPath: string
    const useGpu: bool
    const device: string
    /** Both `self.tokenizer` and `self.model` are set (they are set and
        cleared together). */
    var modelLoaded: bool
    var usingSimulation: bool

    /** `__init__`: the model is loaded when the library imported and loading
        raised nothing; otherwise both handles are None and simulation is on. */
    constructor (modelPath: string, useGpu: bool, transformersAvailable: bool, loadSucceeds: bool)
      ensures this.modelPath == modelPath && this.useGpu == useGpu
      ensures device == (if useGpu then "cuda:0" else "cpu")
      ensures modelLoaded == (transformersAvailable && loadSucceeds)
      ensures usingSimulation == !modelLoaded
    {
      this.modelPath := modelPath;
      this.useGpu := useGpu;
      device := if useGpu then "cuda:0" else "cpu";
      usingSimulation := false;
      if transformersAvailable {
        if loadSucceeds {
          modelLoaded := true;
        } else {
          modelLoaded := false;
          usingSimulation := true;
        }
      } else {
        modelLoaded := false;
        usingSimulation := true;
      }
    }

    /** `self.model and self.tokenizer and not self.using_simulation`. */
    predicate UsesModel()
      reads this
    {
      modelLoaded && !usingSimulation
    }

    /** `_generate_project_description(text)` as written: without a model, or
        when generation raises or the extracted text does not decode, the
        keyword template; otherwise whatever the extracted text decodes to,
        including a JSON value that is not an object. */
    function GenerateAsWritten(text: string, reply: Option<string>, decode: string -> Decoded): (g: Generated)
      reads this
      ensures g == NonObjectValue <==>
                UsesModel() && reply.Some? && decode(ExtractJson(reply.value)) == NonObject
      ensures !UsesModel() || reply.None? ==> g == Described(DefaultTemplate(text))
      ensures UsesModel() && reply.Some? && decode(ExtractJson(reply.value)) == DecodeError ==>
                g == Described(DefaultTemplate(text))
      ensures UsesModel() && reply.Some? && decode(ExtractJson(reply.value)).Object? ==>
                g == Described(decode(ExtractJson(reply.value)).desc)
    {
      if UsesModel() && reply.Some? then
        match decode(ExtractJson(reply.value))
        case DecodeError => Described(DefaultTemplate(text))
        case NonObject => NonObjectValue
        case Object(d) => Described(d)
      else
        Described(DefaultTemplate(text))
    }

    /** `convert(text)` as written: None stands for the AttributeError raised
        when `_create_scratch_project` calls `.get` on a value that is not a
        dictionary; that call is outside the `try`, so the error escapes. */
    method ConvertAsWritten(text: string, reply: Option<string>, decode: string -> Decoded)
      returns (r: Option<Project>)
      ensures r.None? <==> GenerateAsWritten(text, reply, decode) == NonObjectValue
      ensures r.Some? ==> r.value == Compile(GenerateAsWritten(text, reply, decode).desc)
    {
      var g := GenerateAsWritten(text, reply, decode);
      if g.NonObjectValue? {
        r := None;
      } else {
        var p := CreateScratchProject(g.desc);
        r := Some(p);
      }
    }

    /** `_generate_project_description(text)` with every failure, a non-object
        answer included, sent to the keyword template: the result is either the
        object the model's extracted answer decodes to or the template, and it
        is the template whenever there is no model, generation raised, or the
        answer is not an object. */
    function GenerateDescription(text: string, reply: Option<string>, decode: string -> Decoded): (d: Description)
      reads this
      ensures d == DefaultTemplate(text)
              || (UsesModel() && reply.Some? && decode(ExtractJson(reply.value)) == Object(d))
      ensures !UsesModel() || reply.None? ==> d == DefaultTemplate(text)
      ensures UsesModel() && reply.Some? && !decode(ExtractJson(reply.value)).Object? ==>
                d == DefaultTemplate(text)
      ensures UsesModel() && reply.Some? && decode(ExtractJson(reply.value)).Object? ==>
                d == decode(ExtractJson(reply.value)).desc
    {
      if UsesModel() && reply.Some? then
        match decode(ExtractJson(reply.value))
        case Object(d) => d
        case _ => DefaultTemplate(text)
      else
        DefaultTemplate(text)
    }

    /** `convert(text)`: never fails; the project it builds is valid, has one
        sprite per described sprite, and has at least one sprite whenever the
        keyword template was used. */
    method Convert(text: string, reply: Option<string>, decode: string -> Decoded) returns (p: Project)
      ensures p == Compile(GenerateDescription(text, reply, decode))
      ensures ValidProject(p)
      ensures SpriteCount(p.targets) == |SpritesOf(GenerateDescription(text, reply, decode))|
      ensures !UsesModel() || reply.None? ==> SpriteCount(p.targets) >= 1
      ensures SpriteCount(p.targets) == 0 <==>
                UsesModel() && reply.Some? && decode(ExtractJson(reply.value)).Object?
                && SpritesOf(decode(ExtractJson(reply.value)).desc) == []
    {
      var d := GenerateDescription(text, reply, decode);
      p := CreateScratchProject(d);
      SpriteCountOfCompile(d);
    }
  }

  /** An answer after the marker that holds no further marker, no `{` and no
      surrounding whitespace is decoded whole; when it is a JSON value other than an object,
      the source's generation step passes it on, and `convert` raises. */
  lemma NonObjectAnswerPassesThrough(c: TextToScratchConverter, text: string, answer: string,
                                      decode: string -> Decoded)
    requires c.UsesModel()
    requires |answer| > 0 && !IsSpace(answer[0]) && !IsSpace(answer[|answer| - 1])
    requires '{' !in answer && !Contains(answer, AiMarker)
    requires decode(answer) == NonObject
    ensures c.GenerateAsWritten(text, Some(AiMarker + answer), decode) == NonObjectValue
  {
    var response := AiMarker + answer;
    SplitLastAfterSeparator(AiMarker, answer);
    StripUnchanged(answer);
    assert ReplyCandidate(response) == answer;
    assert ExtractJson(response) == answer;
  }

  /** The model answering "42" (which `json.loads` turns into the number 42)
      makes the source's `convert` raise. */
  lemma NumberAnswerEscapes(c: TextToScratchConverter, text: string, decode: string -> Decoded)
    requires c.UsesModel()
    requires decode("42") == NonObject
    ensures c.GenerateAsWritten(text, Some("[|AI|]:42"), decode) == NonObjectValue
  {
    assert "[|AI|]:42" == AiMarker + "42";
    NotContainsFirstChar("42", AiMarker);
    NonObjectAnswerPassesThrough(c, text, "42", decode);
  }

  /** With the correction the same answer gives the template instead. */
  lemma NonObjectAnswerFallsBack(c: TextToScratchConverter, text: string, response: string,
                                 decode: string -> Decoded)
    requires decode(ExtractJson(response)) == NonObject
    ensures c.GenerateDescription(text, Some(response), decode) == DefaultTemplate(text)
  {
  }

  /** An answer that opens a brace and never closes it extracts to the empty
      text; since that does not decode, the template is used. */
  lemma UnclosedBraceFallsBack(c: TextToScratchConverter, text: string, response: string,
                               decode: string -> Decoded)
    requires '{' in ReplyCandidate(response) && '}' !in ReplyCandidate(response)
    requires decode([]) == DecodeError
    ensures c.GenerateDescription(text, Some(response), decode) == DefaultTemplate(text)
  {
    UnclosedBraceGivesEmptyText(ReplyCandidate(response));
  }

  /** A model answering "{}" (an object with no "sprites" key) yields a project
      with the stage alone: no template is substituted for a description that
      describes no sprite. */
  lemma EmptyObjectGivesNoSprites(c: TextToScratchConverter, text: string, decode: string -> Decoded)
    requires c.UsesModel()
    requires decode("{}") == Object(Description(None, None, None, None))
    ensures var p := Compile(c.GenerateDescription(text, Some("[|AI|]:{}"), decode));
            |p.targets| == 1 && SpriteCount(p.targets) == 0
  {
    var response := "[|AI|]:{}";
    EmptyObjectExtracted();
    var d := c.GenerateDescription(text, Some(response), decode);
    assert SpritesOf(d) == [];
    SpriteCountOfCompile(d);
  }

  /** The reply "[|AI|]:{}" hands "{}" to the decoder. */
  lemma EmptyObjectExtracted()
    ensures ExtractJson("[|AI|]:{}") == "{}"
  {
    var response := "[|AI|]:{}";
    assert response == AiMarker + "{}";
    NotContainsFirstChar("{}", AiMarker);
    SplitLastAfterSeparator(AiMarker, "{}");
    StripUnchanged("{}");
    assert ReplyCandidate(response) == "{}";
    EmptyObjectSpan(ExtractJson(response), ReplyCandidate(response));
  }

  /** The span of "{}" is "{}". */
  lemma EmptyObjectSpan(j: string, c: string)
    requires c == "{}" && j == JsonSpan(c)
    ensures j == "{}"
  {
    assert Find(c, '{') == 0;
    assert c[0..][1] == '}';
    assert j != [];
    var a :| PieceAt(c, j, a);
  }

  /** Without a model, "创建一个小猫捉老鼠的游戏" becomes the game description and
      a project with the stage, "主角" and "障碍物": two sprites. */
  lemma CatAndMouseEndToEnd(c: TextToScratchConverter, reply: Option<string>, decode: string -> Decoded)
    requires !c.UsesModel()
    ensures var p := Compile(c.GenerateDescription("创建一个小猫捉老鼠的游戏", reply, decode));
            |p.targets| == 3 && SpriteCount(p.targets) == 2
            && p.targets[1].name == "主角" && p.targets[2].name == "障碍物"
  {
    CatAndMouseIsGame();
    GameProjectShape();
  }

  /** Without a model, a request with no keyword becomes the generic
      description and a project with one sprite, "精灵1". */
  lemma NoKeywordEndToEnd(c: TextToScratchConverter, reply: Option<string>, decode: string -> Decoded)
    requires !c.UsesModel()
    ensures var p := Compile(c.GenerateDescription("画一只小猫", reply, decode));
            SpriteCount(p.targets) == 1 && p.targets[1].name == "精灵1"
  {
    DrawACatIsGeneric();
    GenericProjectShape();
  }
}
