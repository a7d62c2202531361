/** The `post_embed` command: validate the arguments, build one embed, and post it.

    The content is `-content` when it is given and non-empty, otherwise the trailing text. A title or
    some content is required, and a `-color` must parse. The embed gets the title, the colour (only
    when its integer value is non-zero), and either the formatted content as its description or, with
    `-raw`, the fields of the content parsed as JSON, which override the earlier ones. Using
    `-content` also draws a deprecation notice.

    The helper libraries (`parseColor`, `rgbToInt`, `JSON.parse`, `isValidEmbed`, `formatContent`)
    are not part of this model: they are passed in as uninterpreted functions (`Library`). The
    messages sent and the final post are recorded in a trace (`Effect`). */
module PostEmbed {
  import opened Wrappers

  /** A JSON value, as `JSON.parse` returns it. Numbers are integers here. */
  datatype Json =
    | JNull
    | JBool(b: bool)
    | JNumber(n: int)
    | JString(s: string)
    | JArray(items: seq<Json>)
    | JObject(fields: map<string, Json>)

  /** An embed object: its own properties by name. */
  type Embed = map<string, Json>

  /** The `[r, g, b]` triple that `parseColor` returns. */
  datatype Rgb = Rgb(red: int, green: int, blue: int)

  /** The library functions the command calls. `parseColor` gives `None` for `null`, and `jsonParse`
      gives `Err(message)` when `JSON.parse` throws. */
  datatype Library = Library(
    parseColor: string -> Option<Rgb>,
    rgbToInt: Rgb -> int,
    jsonParse: string -> Result<Json, string>,
    isValidEmbed: Json -> bool,
    formatContent: string -> string)

  /** The command's arguments that the body reads; `None` is an option that was not given. */
  datatype Args = Args(
    channel: string,
    maincontent: Option<string>,
    title: Option<string>,
    content: Option<string>,
    color: Option<string>,
    raw: bool)

  /** Which error message is sent. */
  datatype PostError =
    | TitleOrContentRequired
    | InvalidColor
    | EmbedSyntaxError(detail: string)
    | EmbedNotValid

  /** What the command does, in order. */
  datatype Effect =
    | SendError(error: PostError)              // sendErrorMessage
    | SendDeprecationNotice(prefix: string)    // the notice about `-content`, naming the command prefix
    | ActualPost(channel: string, embeds: seq<Embed>)  // actualPostCmd

  /** JavaScript truthiness of an optional string: given and not empty. */
  predicate Truthy(s: Option<string>)
  {
    s.Some? && s.value != ""
  }

  /** `args.content || args.maincontent` */
  function EffectiveContent(args: Args): (c: Option<string>)
    ensures Truthy(c) <==> Truthy(args.content) || Truthy(args.maincontent)
    ensures Truthy(args.content) ==> c == args.content
    ensures !Truthy(args.content) ==> c == args.maincontent
  {
    if Truthy(args.content) then args.content else args.maincontent
  }

  /** `pluginData.fullConfig.prefix || "!"` */
  function CommandPrefix(prefix: Option<string>): (p: string)
    ensures p != ""
    ensures Truthy(prefix) ==> p == prefix.value
    ensures !Truthy(prefix) ==> p == "!"
  {
    if Truthy(prefix) then prefix.value else "!"
  }

  /** A `-color` was given and `parseColor` rejected it. */
  predicate ColorRejected(args: Args, lib: Library)
  {
    Truthy(args.color) && lib.parseColor(args.color.value).None?
  }

  /** The own properties `Object.assign` copies from a parsed value. */
  function OwnProperties(v: Json): Embed
  {
    if v.JObject? then v.fields else map[]
  }

  /** The embed before any content is added: the title when one is given, and the colour only when
      its integer value is truthy, so a colour that converts to 0 is left out. */
  function BaseEmbed(args: Args, lib: Library): (e: Embed)
    requires !ColorRejected(args, lib)
    ensures e.Keys <= {"title", "color"}
    ensures "title" in e <==> Truthy(args.title)
    ensures "title" in e ==> e["title"] == JString(args.title.value)
    ensures "color" in e <==> Truthy(args.color) && lib.rgbToInt(lib.parseColor(args.color.value).value) != 0
    ensures "color" in e ==> e["color"] == JNumber(lib.rgbToInt(lib.parseColor(args.color.value).value))
  {
    var color := if Truthy(args.color) then Some(lib.rgbToInt(lib.parseColor(args.color.value).value)) else None;
    var withTitle := if Truthy(args.title) then map["title" := JString(args.title.value)] else map[];
    if color.Some? && color.value != 0 then withTitle["color" := JNumber(color.value)] else withTitle
  }

  /** The embed `post_embed` posts, or the first error it reports. */
  function BuildEmbed(args: Args, lib: Library): (r: Result<Embed, PostError>)
    // errors, in the order they are checked
    ensures r == Err(TitleOrContentRequired) <==> !Truthy(args.title) && !Truthy(EffectiveContent(args))
    ensures r == Err(InvalidColor) <==>
              (Truthy(args.title) || Truthy(EffectiveContent(args))) && ColorRejected(args, lib)
    ensures r.Err? && r.error.EmbedSyntaxError? <==>
              (Truthy(args.title) || Truthy(EffectiveContent(args))) && !ColorRejected(args, lib) &&
              Truthy(EffectiveContent(args)) && args.raw && lib.jsonParse(EffectiveContent(args).value).Err?
    ensures r.Err? && r.error.EmbedSyntaxError? ==> r.error.detail == lib.jsonParse(EffectiveContent(args).value).error
    ensures r == Err(EmbedNotValid) <==>
              (Truthy(args.title) || Truthy(EffectiveContent(args))) && !ColorRejected(args, lib) &&
              Truthy(EffectiveContent(args)) && args.raw && lib.jsonParse(EffectiveContent(args).value).Ok? &&
              !lib.isValidEmbed(lib.jsonParse(EffectiveContent(args).value).value)
    // without -raw, or without content: the base fields, and the formatted content as the description
    ensures r.Ok? && !(args.raw && Truthy(EffectiveContent(args))) ==>
              var base := BaseEmbed(args, lib);
              (forall k | k in base :: k in r.value && r.value[k] == base[k]) &&
              ("description" in r.value <==> Truthy(EffectiveContent(args))) &&
              ("description" in r.value ==> r.value["description"] == JString(lib.formatContent(EffectiveContent(args).value))) &&
              r.value.Keys <= base.Keys + {"description"}
    // with -raw and content: the parsed fields override the base fields key by key
    ensures r.Ok? && args.raw && Truthy(EffectiveContent(args)) ==>
              var base := BaseEmbed(args, lib);
              var parsed := lib.jsonParse(EffectiveContent(args).value);
              parsed.Ok? && lib.isValidEmbed(parsed.value) &&
              var fields := OwnProperties(parsed.value);
              r.value.Keys == base.Keys + fields.Keys &&
              (forall k | k in fields :: r.value[k] == fields[k]) &&
              (forall k | k in base && k !in fields :: r.value[k] == base[k])
  {
    var content := EffectiveContent(args);
    if !Truthy(args.title) && !Truthy(content) then Err(TitleOrContentRequired)
    else if ColorRejected(args, lib) then Err(InvalidColor)
    else
      var base := BaseEmbed(args, lib);
      if !Truthy(content) then Ok(base)
      else if !args.raw then Ok(base["description" := JString(lib.formatContent(content.value))])
      else
        match lib.jsonParse(content.value)
        case Err(detail) => Err(EmbedSyntaxError(detail))
        case Ok(parsed) => if lib.isValidEmbed(parsed) then Ok(base + OwnProperties(parsed)) else Err(EmbedNotValid)
  }

  /** The `run` body of `post_embed`, with the configured command prefix and the library functions. */
  method Run(args: Args, prefix: Option<string>, lib: Library) returns (effects: seq<Effect>)
    // an error is reported alone: no notice and no post
    ensures BuildEmbed(args, lib).Err? ==> effects == [SendError(BuildEmbed(args, lib).error)]
    // on success: the deprecation notice exactly when -content was used, then one post of one embed
    ensures BuildEmbed(args, lib).Ok? ==>
              effects == (if Truthy(args.content) then [SendDeprecationNotice(CommandPrefix(prefix))] else []) +
                         [ActualPost(args.channel, [BuildEmbed(args, lib).value])]
    ensures |effects| >= 1
    ensures effects[|effects| - 1].ActualPost? <==> BuildEmbed(args, lib).Ok?
    ensures forall i | 0 <= i < |effects| - 1 :: !effects[i].ActualPost?
  {
    effects := [];
    var content := EffectiveContent(args);

    if !Truthy(args.title) && !Truthy(content) {
      effects := effects + [SendError(TitleOrContentRequired)];
      return;
    }

    var color: Option<int> := None;
    if Truthy(args.color) {
      var colorRgb := lib.parseColor(args.color.value);
      if colorRgb.Some? {
        color := Some(lib.rgbToInt(colorRgb.value));
      } else {
        effects := effects + [SendError(InvalidColor)];
        return;
      }
    }

    var embed: Embed := map[];
    if Truthy(args.title) {
      embed := embed["title" := JString(args.title.value)];
    }
    if color.Some? && color.value != 0 {
      embed := embed["color" := JNumber(color.value)];
    }
    assert embed == BaseEmbed(args, lib);

    if Truthy(content) {
      if args.raw {
        var parsed := lib.jsonParse(content.value);
        if parsed.Err? {
          effects := effects + [SendError(EmbedSyntaxError(parsed.error))];
          return;
        }
        if !lib.isValidEmbed(parsed.value) {
          effects := effects + [SendError(EmbedNotValid)];
          return;
        }
        assert map[] + embed == embed;
        embed := map[] + embed + OwnProperties(parsed.value);
      } else {
        embed := embed["description" := JString(lib.formatContent(content.value))];
      }
    }

    if Truthy(args.content) {
      effects := effects + [SendDeprecationNotice(CommandPrefix(prefix))];
    }
    effects := effects + [ActualPost(args.channel, [embed])];
  }

  /** A colour that converts to 0 (black) is dropped from the embed without an error, even though
      the colour string was accepted. */
  lemma ZeroColorIsDropped(args: Args, lib: Library)
    requires Truthy(args.color) && lib.parseColor(args.color.value).Some?
    requires lib.rgbToInt(lib.parseColor(args.color.value).value) == 0
    requires Truthy(args.title) || Truthy(EffectiveContent(args))
    requires !(args.raw && Truthy(EffectiveContent(args)))
    ensures BuildEmbed(args, lib).Ok? && "color" !in BuildEmbed(args, lib).value
  {
  }
}
