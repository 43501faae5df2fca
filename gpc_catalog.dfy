/**
 * The command catalog of gpc.py: the `CommandEnum` members and the
 * `Command.definitions` dictionary giving each command its arity, its
 * URL-path template and, for three of them, the mapping from a friendly
 * argument to the camera's setting code.
 */
module GpcCatalog {
  import opened Wrappers
  import opened PyStr
  import Tables

  datatype Command =
    | DefaultBootMode | DisplayOn | DisplayOff | GetInfo | GetStatus | GetBatteryLevel
    | PowerOff | RecordStart | RecordStop | Stream | StreamBitrate | StreamResolution
    | VideoResolution | Wake | Zoom

  /** The enum member's value: the name a user types; never empty. */
  function Name(c: Command): (r: string)
    ensures |r| > 0
  {
    match c
    case DefaultBootMode => "default_boot_mode"
    case DisplayOn => "display_on"
    case DisplayOff => "display_off"
    case GetInfo => "get_info"
    case GetStatus => "get_status"
    case GetBatteryLevel => "get_battery_level"
    case PowerOff => "power_off"
    case RecordStart => "record_start"
    case RecordStop => "record_stop"
    case Stream => "stream"
    case StreamBitrate => "stream_bitrate"
    case StreamResolution => "stream_resolution"
    case VideoResolution => "video_resolution"
    case Wake => "wake"
    case Zoom => "zoom"
  }

  /** The keys of `Command.definitions`, in the dictionary's iteration order. */
  const Definitions: seq<Command> := [
    DefaultBootMode, DisplayOn, DisplayOff, GetInfo, GetStatus, GetBatteryLevel, PowerOff,
    RecordStart, RecordStop, Stream, StreamBitrate, StreamResolution, VideoResolution, Wake, Zoom
  ]

  /** The names of the catalog's entries, in iteration order. */
  function Names(): (names: seq<string>)
    ensures |names| == |Definitions|
    ensures forall i | 0 <= i < |Definitions| :: names[i] == Name(Definitions[i])
  {
    seq(|Definitions|, i requires 0 <= i < |Definitions| => Name(Definitions[i]))
  }

  /** The `'arity'` entry: how many arguments follow the name. */
  function Arity(c: Command): (r: nat)
    ensures r <= 1
  {
    match c
    case DefaultBootMode | StreamBitrate | StreamResolution | VideoResolution | Zoom => 1
    case _ => 0
  }

  /** The URL-path templates; the two longest are written in two pieces, which changes nothing about their value. */
  function Template(c: Command): (r: string)
    ensures r == [] || r[0] == '/'
  {
    match c
    case DefaultBootMode => "/setting/53/{}"
    case DisplayOn => "/setting/58/1"
    case DisplayOff => "/setting/58/0"
    case GetInfo => ""
    case GetStatus => "/status"
    case GetBatteryLevel => "/status"
    case PowerOff => "/command/system/sleep"
    case RecordStart => "/command/shutter?p=1"
    case RecordStop => "/command/shutter?p=0"
    case Stream => "/execute?p1=gpStream" + "&a1=proto_v2&c1=restart"
    case StreamBitrate => "/setting/62/{}"
    case StreamResolution => "/setting/64/{}"
    case VideoResolution => "/setting/2/{}"
    case Wake => ""
    case Zoom => "/command/digital_zoom" + "?range_pcnt={}"
  }

  /** The `'mapping'` entry of a definition, for the commands that have one. */
  function Mapping(c: Command): (r: Option<map<string, string>>)
    ensures r.Some? ==> Arity(c) == 1
  {
    match c
    case DefaultBootMode => Some(map["video" := "0", "photo" := "1", "multishot" := "2"])
    case StreamResolution => Some(map["720p" := "7", "480p" := "4", "240p" := "1"])
    case VideoResolution => Some(map["4k" := "1", "1440p" := "7", "1080p" := "9", "720p" := "12"])
    case _ => None
  }

  /** `definitions` lookup by exact, case-sensitive name: the first entry whose name is `name`. */
  function Lookup(name: string): (r: Option<Command>)
    ensures r.Some? ==> Name(r.value) == name
  {
    match Tables.FirstIndex(Names(), name)
    case None => None
    case Some(i) => Some(Definitions[i])
  }

  /** The text before the one `{}` of a one-argument template (nothing follows it); `zoom`'s is written in two pieces, like its template. */
  function FieldPrefix(c: Command): string
    requires Arity(c) == 1
  {
    match c
    case DefaultBootMode => "/setting/53/"
    case StreamBitrate => "/setting/62/"
    case StreamResolution => "/setting/64/"
    case VideoResolution => "/setting/2/"
    case Zoom => "/command/digital_zoom" + "?range_pcnt="
  }

  /** A string of decimal digits, as the camera's setting codes are. */
  predicate IsCode(s: string) {
    |s| > 0 && forall k | 0 <= k < |s| :: '0' <= s[k] <= '9'
  }

  /** No two tags share a name. */
  lemma NameInjective(c: Command, d: Command)
    ensures Name(c) == Name(d) ==> c == d
  {
  }

  /** Every tag is a key of `definitions`, exactly once. */
  lemma DefinitionsComplete(c: Command)
    ensures c in Definitions
    ensures forall i, j | 0 <= i < j < |Definitions| :: Definitions[i] != Definitions[j]
  {
  }

  /** The catalog's names are unique. */
  lemma NamesUnique()
    ensures Tables.Distinct(Names())
  {
    forall i, j | 0 <= i < j < |Definitions| ensures Names()[i] != Names()[j] {
      DefinitionsComplete(Definitions[i]);
      NameInjective(Definitions[i], Definitions[j]);
    }
  }

  /** Looking up the name of any command finds that command. */
  lemma LookupName(c: Command)
    ensures Lookup(Name(c)) == Some(c)
  {
    DefinitionsComplete(c);
    var k :| 0 <= k < |Definitions| && Definitions[k] == c;
    assert Names()[k] == Name(c);
    var i := Tables.FirstIndex(Names(), Name(c));
    assert i.Some?;
    NameInjective(Definitions[i.value], c);
  }

  /** Lookup fails exactly on the strings that name no command. */
  lemma LookupUnknown(name: string)
    ensures Lookup(name).None? <==> forall c: Command :: Name(c) != name
  {
    if Lookup(name).None? {
      forall c: Command ensures Name(c) != name {
        LookupName(c);
      }
    }
  }

  /** A one-argument template is its brace-free fixed prefix followed by one `{}`. */
  lemma FieldTemplateShape(c: Command)
    requires Arity(c) == 1
    ensures BraceFree(FieldPrefix(c)) && Template(c) == FieldPrefix(c) + "{}"
  {
    if c == Zoom {
      assert BraceFree(FieldPrefix(Zoom)) && Template(Zoom) == FieldPrefix(Zoom) + "{}";
    } else {
      SettingTemplateShape(c);
    }
  }

  /** The four settings that take a value. */
  lemma SettingTemplateShape(c: Command)
    requires c in {DefaultBootMode, StreamBitrate, StreamResolution, VideoResolution}
    ensures BraceFree(FieldPrefix(c)) && Template(c) == FieldPrefix(c) + "{}"
  {
    match c
    case DefaultBootMode =>
      assert BraceFree(FieldPrefix(DefaultBootMode)) && Template(DefaultBootMode) == FieldPrefix(DefaultBootMode) + "{}";
    case StreamBitrate =>
      assert BraceFree(FieldPrefix(StreamBitrate)) && Template(StreamBitrate) == FieldPrefix(StreamBitrate) + "{}";
    case StreamResolution =>
      assert BraceFree(FieldPrefix(StreamResolution)) && Template(StreamResolution) == FieldPrefix(StreamResolution) + "{}";
    case VideoResolution =>
      assert BraceFree(FieldPrefix(VideoResolution)) && Template(VideoResolution) == FieldPrefix(VideoResolution) + "{}";
  }

  /** A template of a command without arguments contains no brace. */
  lemma PlainTemplateShape(c: Command)
    requires Arity(c) == 0
    ensures BraceFree(Template(c))
  {
    if c in {DisplayOn, DisplayOff} {
      DisplayTemplatesPlain(c);
    } else if c in {GetInfo, GetStatus, GetBatteryLevel} {
      QueryTemplatesPlain(c);
    } else if c in {PowerOff, RecordStart, RecordStop} {
      CameraCommandTemplatesPlain(c);
    } else if c == Wake {
      assert Template(Wake) == [];
    } else {
      StreamTemplatePlain();
    }
  }

  /** The display settings, `/setting/58/...`. */
  lemma DisplayTemplatesPlain(c: Command)
    requires c in {DisplayOn, DisplayOff}
    ensures BraceFree(Template(c))
  {
    match c
    case DisplayOn => assert BraceFree(Template(DisplayOn));
    case DisplayOff => assert BraceFree(Template(DisplayOff));
  }

  /** The queries: the bare base URL and `/status`. */
  lemma QueryTemplatesPlain(c: Command)
    requires c in {GetInfo, GetStatus, GetBatteryLevel}
    ensures BraceFree(Template(c))
  {
    match c
    case GetInfo => assert BraceFree(Template(GetInfo));
    case GetStatus => assert BraceFree(Template(GetStatus));
    case GetBatteryLevel => assert BraceFree(Template(GetBatteryLevel));
  }

  /** The camera commands, `/command/...`: sleep and the shutter. */
  lemma CameraCommandTemplatesPlain(c: Command)
    requires c in {PowerOff, RecordStart, RecordStop}
    ensures BraceFree(Template(c))
  {
    match c
    case PowerOff => assert BraceFree(Template(PowerOff));
    case RecordStart => assert BraceFree(Template(RecordStart));
    case RecordStop => assert BraceFree(Template(RecordStop));
  }

  /** The stream restart, checked piece by piece. */
  lemma StreamTemplatePlain()
    ensures BraceFree(Template(Stream))
  {
    var front, back := "/execute?p1=gpStream", "&a1=proto_v2&c1=restart";
    assert BraceFree(front) && BraceFree(back);
    BraceFreeAppend(front, back);
  }

  /** Each template has exactly as many `{}` fields as its command has arguments, and no other braces. */
  lemma TemplateFields(c: Command)
    ensures Formattable(Template(c)) && Placeholders(Template(c)) == Arity(c)
  {
    if Arity(c) == 1 {
      FieldTemplateShape(c);
      FormatOneField(FieldPrefix(c), "", [""]);
      assert FieldPrefix(c) + "{}" + "" == Template(c);
    } else {
      PlainTemplateShape(c);
      FormatBraceFree(Template(c), []);
    }
  }

  /** A one-argument template puts its argument after the fixed text `FieldPrefix(c)` and nothing after it. */
  lemma FormatOneArgument(c: Command, a: string)
    requires Arity(c) == 1
    ensures Format(Template(c), [a]) == Some(FieldPrefix(c) + a)
  {
    FieldTemplateShape(c);
    FormatOneField(FieldPrefix(c), "", [a]);
    assert FieldPrefix(c) + "{}" + "" == Template(c);
    assert FieldPrefix(c) + a + "" == FieldPrefix(c) + a;
  }

  /** A template without arguments is plain text and formats to itself. */
  lemma FormatNoArgument(c: Command, args: seq<string>)
    requires Arity(c) == 0
    ensures Format(Template(c), args) == Some(Template(c))
  {
    PlainTemplateShape(c);
    FormatBraceFree(Template(c), args);
  }

  /**
   * Only `default_boot_mode`, `stream_resolution` and `video_resolution`
   * carry a mapping; each takes one argument, maps onto decimal setting
   * codes, and maps distinct friendly values to distinct codes.
   */
  lemma MappingCodes(c: Command)
    ensures Mapping(c).Some? <==> c in {DefaultBootMode, StreamResolution, VideoResolution}
    ensures Mapping(c).Some? ==> Arity(c) == 1
    ensures Mapping(c).Some? ==> forall k | k in Mapping(c).value :: IsCode(Mapping(c).value[k])
    ensures Mapping(c).Some? ==> forall k, l | k in Mapping(c).value && l in Mapping(c).value ::
      Mapping(c).value[k] == Mapping(c).value[l] ==> k == l
  {
  }
}
