/**
 * The configuration records of image_streamer.py and `Config.from_dict`,
 * which turns the loaded YAML mapping into them. The dataclasses do not
 * check the types of their fields, so every field holds a YAML value.
 */
module Settings {
  import opened Wrappers

  /** A value as the YAML loader produces it. */
  datatype Value = Null | Bool(b: bool) | Int(i: int) | Str(s: string) | List(items: seq<Value>) | Dict(entries: map<string, Value>)

  /** `_StreamerConfig`; `streamerType` is the field `type`. */
  datatype StreamerConfig = StreamerConfig(
    streamerType: Value, path: Value, randomize: Value, extensions: Value,
    pattern: Value, host: Value, passwd: Value, user: Value)

  /** `_TextConfig`; `style` is the field `type`. */
  datatype TextConfig = TextConfig(
    x: Value, y: Value, fontSize: Value, color: Value, font: Value, format: Value,
    style: Value, anchor: Value, contrastColor: Value, blackBorderColor: Value, whiteThreshold: Value)

  /** `Config`. */
  datatype Config = Config(
    streamer: StreamerConfig, fullscreen: Value, timeout: Value, mode: Value,
    text: Option<TextConfig>, initialSleep: Value)

  /**
   * The exceptions from_dict lets through: KeyError for the missing
   * `streamer`, and the TypeErrors of a dataclass call with `**kwargs` (not a
   * mapping, an unknown keyword, a required field missing).
   */
  datatype ConfigError =
    | MissingKey(key: string)
    | NotAMapping(record: string)
    | UnexpectedKeywords(record: string, keys: set<string>)
    | MissingArguments(record: string, names: set<string>)

  const StreamerFields: set<string> := {"type", "path", "randomize", "extensions", "pattern", "host", "passwd", "user"}
  const StreamerRequired: set<string> := {"type", "path"}
  const TextFields: set<string> :=
    {"x", "y", "font_size", "color", "font", "format", "type", "anchor",
     "contrast_color", "black_border_color", "white_threshold"}
  /** The fields of `Config` other than `streamer` and `text`, which from_dict passes itself. */
  const ConfigKeywords: set<string> := {"fullscreen", "timeout", "mode", "initial_sleep"}

  const DefaultExtensions: Value := List([Str("jpg"), Str("png"), Str("jpeg")])

  /** A keyword argument, or the field's default when the caller left it out. */
  function Get(kwargs: map<string, Value>, name: string, default: Value): (v: Value)
    ensures name in kwargs ==> v == kwargs[name]
    ensures name !in kwargs ==> v == default
  {
    if name in kwargs then kwargs[name] else default
  }

  /**
   * Binding `Record(**arg)`: the argument must be a mapping, every key must
   * name a field, and every field without a default must be given.
   */
  function BindKeywords(record: string, arg: Value, fields: set<string>, required: set<string>): (r: Result<map<string, Value>, ConfigError>)
    ensures r.Success? <==> arg.Dict? && arg.entries.Keys <= fields && required <= arg.entries.Keys
    ensures r.Success? ==> r.value == arg.entries
  {
    if !arg.Dict? then Failure(NotAMapping(record))
    else if !(arg.entries.Keys <= fields) then Failure(UnexpectedKeywords(record, arg.entries.Keys - fields))
    else if !(required <= arg.entries.Keys) then Failure(MissingArguments(record, required - arg.entries.Keys))
    else Success(arg.entries)
  }

  /** `_TextConfig(**_text)` with the dataclass defaults. */
  function MakeTextConfig(arg: Value): (r: Result<TextConfig, ConfigError>)
    ensures r.Success? <==> arg.Dict? && arg.entries.Keys <= TextFields
    ensures r.Success? ==>
      && r.value.x == Get(arg.entries, "x", Int(10))
      && r.value.y == Get(arg.entries, "y", Int(10))
      && r.value.fontSize == Get(arg.entries, "font_size", Int(24))
      && r.value.color == Get(arg.entries, "color", Str("white"))
      && r.value.font == Get(arg.entries, "font", Str("Arial"))
      && r.value.format == Get(arg.entries, "format", Str("%0"))
      && r.value.style == Get(arg.entries, "type", Str("bold"))
      && r.value.anchor == Get(arg.entries, "anchor", Str("nw"))
      && r.value.contrastColor == Get(arg.entries, "contrast_color", Null)
      && r.value.blackBorderColor == Get(arg.entries, "black_border_color", Null)
      && r.value.whiteThreshold == Get(arg.entries, "white_threshold", Int(235))
    ensures r.Success? && arg.entries == map[] ==>
      r.value == TextConfig(Int(10), Int(10), Int(24), Str("white"), Str("Arial"), Str("%0"),
                            Str("bold"), Str("nw"), Null, Null, Int(235))
  {
    var kw :- BindKeywords("_TextConfig", arg, TextFields, {});
    Success(TextConfig(
      Get(kw, "x", Int(10)), Get(kw, "y", Int(10)), Get(kw, "font_size", Int(24)),
      Get(kw, "color", Str("white")), Get(kw, "font", Str("Arial")), Get(kw, "format", Str("%0")),
      Get(kw, "type", Str("bold")), Get(kw, "anchor", Str("nw")),
      Get(kw, "contrast_color", Null), Get(kw, "black_border_color", Null),
      Get(kw, "white_threshold", Int(235))))
  }

  /** `_StreamerConfig(**_streamer)`: `type` and `path` are required. */
  function MakeStreamerConfig(arg: Value): (r: Result<StreamerConfig, ConfigError>)
    ensures r.Success? <==> arg.Dict? && arg.entries.Keys <= StreamerFields && StreamerRequired <= arg.entries.Keys
    ensures r.Success? ==> r.value.streamerType == arg.entries["type"] && r.value.path == arg.entries["path"]
    ensures r.Success? ==>
      && r.value.randomize == Get(arg.entries, "randomize", Bool(false))
      && r.value.extensions == Get(arg.entries, "extensions", DefaultExtensions)
      && r.value.pattern == Get(arg.entries, "pattern", Str("*"))
      && r.value.host == Get(arg.entries, "host", Null)
      && r.value.passwd == Get(arg.entries, "passwd", Str(""))
      && r.value.user == Get(arg.entries, "user", Str(""))
  {
    var kw :- BindKeywords("_StreamerConfig", arg, StreamerFields, StreamerRequired);
    Success(StreamerConfig(
      kw["type"], kw["path"], Get(kw, "randomize", Bool(false)), Get(kw, "extensions", DefaultExtensions),
      Get(kw, "pattern", Str("*")), Get(kw, "host", Null), Get(kw, "passwd", Str("")), Get(kw, "user", Str(""))))
  }

  /** `Config(streamer=..., text=..., **data)` with what is left of the caller's dict. */
  function MakeConfig(streamer: StreamerConfig, text: Option<TextConfig>, rest: map<string, Value>): (r: Result<Config, ConfigError>)
    ensures r.Success? <==> rest.Keys <= ConfigKeywords
    ensures r.Failure? ==> r.error == UnexpectedKeywords("Config", rest.Keys - ConfigKeywords)
    ensures r.Success? ==>
      && r.value.streamer == streamer && r.value.text == text
      && r.value.fullscreen == Get(rest, "fullscreen", Bool(true))
      && r.value.timeout == Get(rest, "timeout", Int(5))
      && r.value.mode == Get(rest, "mode", Str("endless"))
      && r.value.initialSleep == Get(rest, "initial_sleep", Int(5))
  {
    if !(rest.Keys <= ConfigKeywords) then Failure(UnexpectedKeywords("Config", rest.Keys - ConfigKeywords))
    else Success(Config(streamer, Get(rest, "fullscreen", Bool(true)), Get(rest, "timeout", Int(5)),
                        Get(rest, "mode", Str("endless")), text, Get(rest, "initial_sleep", Int(5))))
  }

  /** `text` as from_dict reads it: absent and `null` both give None. */
  function TextOf(data: map<string, Value>): (r: Result<Option<TextConfig>, ConfigError>)
    ensures r.Success? <==> Get(data, "text", Null) == Null || MakeTextConfig(data["text"]).Success?
    ensures r.Success? ==> (r.value == None <==> Get(data, "text", Null) == Null)
    ensures r.Success? && r.value.Some? ==> MakeTextConfig(data["text"]) == Success(r.value.value)
    ensures r.Failure? ==> MakeTextConfig(data["text"]) == Failure(r.error)
  {
    var raw := Get(data, "text", Null);
    if raw == Null then Success(None)
    else
      var t :- MakeTextConfig(raw);
      Success(Some(t))
  }

  /**
   * What from_dict returns for a given dictionary. It fails without a
   * `streamer` key or with a key that is not a Config field; an absent
   * `text` gives None; the other fields take their defaults.
   */
  function ParseConfig(data: map<string, Value>): (r: Result<Config, ConfigError>)
    ensures r.Success? <==>
      && TextOf(data).Success?
      && "streamer" in data && MakeStreamerConfig(data["streamer"]).Success?
      && data.Keys - {"text", "streamer"} <= ConfigKeywords
    ensures r.Success? ==> TextOf(data) == Success(r.value.text)
    ensures "streamer" !in data ==> r.Failure?
    ensures TextOf(data).Success? && "streamer" !in data ==> r == Failure(MissingKey("streamer"))
    ensures r.Success? ==> data.Keys - {"text", "streamer"} <= ConfigKeywords
    ensures r.Success? ==> (r.value.text == None <==> Get(data, "text", Null) == Null)
    ensures r.Success? ==>
      && r.value.fullscreen == Get(data, "fullscreen", Bool(true))
      && r.value.timeout == Get(data, "timeout", Int(5))
      && r.value.mode == Get(data, "mode", Str("endless"))
      && r.value.initialSleep == Get(data, "initial_sleep", Int(5))
    ensures r.Success? ==> "streamer" in data && MakeStreamerConfig(data["streamer"]) == Success(r.value.streamer)
  {
    var text :- TextOf(data);
    if "streamer" !in data then Failure(MissingKey("streamer"))
    else
      var streamer :- MakeStreamerConfig(data["streamer"]);
      MakeConfig(streamer, text, data - {"text", "streamer"})
  }

  /**
   * The keys from_dict removes from the caller's dictionary: always `text`;
   * `streamer` as well unless building the text record already failed.
   */
  function KeysPopped(data: map<string, Value>): set<string>
  {
    if TextOf(data).Failure? then {"text"} else {"text", "streamer"}
  }

  /** The dictionary passed to from_dict, which the call changes. */
  class ConfigDict {
    var entries: map<string, Value>

    constructor (entries: map<string, Value>)
      ensures this.entries == entries
    {
      this.entries := entries;
    }
  }

  /**
   * `Config.from_dict`: pops `text` (default None) and `streamer` from the
   * caller's dictionary and builds the records; whatever is left must be
   * Config fields.
   */
  method FromDict(data: ConfigDict) returns (r: Result<Config, ConfigError>)
    modifies data
    ensures r == ParseConfig(old(data.entries))
    ensures data.entries == old(data.entries) - KeysPopped(old(data.entries))
  {
    ghost var given := data.entries;
    var rawText := if "text" in data.entries then data.entries["text"] else Null;
    data.entries := data.entries - {"text"};
    var text: Option<TextConfig> := None;
    if rawText != Null {
      var t := MakeTextConfig(rawText);
      if t.Failure? {
        return Failure(t.error);
      }
      text := Some(t.value);
    }
    assert TextOf(given) == Success(text);
    if "streamer" !in data.entries {
      return Failure(MissingKey("streamer"));
    }
    var rawStreamer := data.entries["streamer"];
    data.entries := data.entries - {"streamer"};
    assert data.entries == given - {"text", "streamer"};
    var streamer := MakeStreamerConfig(rawStreamer);
    if streamer.Failure? {
      return Failure(streamer.error);
    }
    r := MakeConfig(streamer.value, text, data.entries);
  }

  /** A configuration naming only its streamer gets every documented default. */
  lemma MinimalConfigDefaults()
    ensures ParseConfig(map["streamer" := Dict(map["type" := Str("DirectoryStreamer"), "path" := Str("/pictures")])])
            == Success(Config(
                 StreamerConfig(Str("DirectoryStreamer"), Str("/pictures"), Bool(false), DefaultExtensions,
                                Str("*"), Null, Str(""), Str("")),
                 Bool(true), Int(5), Str("endless"), None, Int(5)))
  {
  }

  /** A key that is not a Config field is rejected, whatever else is given. */
  lemma UnknownKeyRejected(data: map<string, Value>, key: string)
    requires key in data && key !in ConfigKeywords && key != "text" && key != "streamer"
    ensures ParseConfig(data).Failure?
  {
  }
}
