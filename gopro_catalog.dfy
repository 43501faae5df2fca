/**
 * The command catalog of GoPro.py, the older variant: the
 * `Command.CommandEnum` members and the `Command.definitions` dictionary.
 * Its templates carry no leading `/` (the base URL ends in one), and the
 * enum member `wake` has no entry in the dictionary.
 */
module GoProCatalog {
  import opened Wrappers
  import opened PyStr
  import Tables

  datatype Command =
    | Wake | RecordStart | RecordStop | VideoResolution | Zoom | PowerOff
    | DisplayOn | DisplayOff | DefaultBootMode | GetBatteryLife | Bitrate

  /** The enum member's value: the name a user types; never empty. */
  function Name(c: Command): (r: string)
    ensures |r| > 0
  {
    match c
    case Wake => "wake"
    case RecordStart => "record_start"
    case RecordStop => "record_stop"
    case VideoResolution => "video_resolution"
    case Zoom => "zoom"
    case PowerOff => "power_off"
    case DisplayOn => "display_on"
    case DisplayOff => "display_off"
    case DefaultBootMode => "default_boot_mode"
    case GetBatteryLife => "get_battery_life"
    case Bitrate => "bitrate"
  }

  /** The keys of `Command.definitions`, in the dictionary's iteration order; `Wake` is not among them. */
  const Definitions: seq<Command> := [
    PowerOff, Zoom, VideoResolution, DefaultBootMode, Bitrate,
    RecordStart, RecordStop, DisplayOn, DisplayOff, GetBatteryLife
  ]

  function Names(): (names: seq<string>)
    ensures |names| == |Definitions|
    ensures forall i | 0 <= i < |Definitions| :: names[i] == Name(Definitions[i])
  {
    seq(|Definitions|, i requires 0 <= i < |Definitions| => Name(Definitions[i]))
  }

  /** A command that has an entry in `definitions`. */
  predicate Defined(c: Command) {
    c != Wake
  }

  /** The `'arity'` entry: how many arguments follow the name. */
  function Arity(c: Command): (r: nat)
    requires Defined(c)
    ensures r <= 1
  {
    match c
    case VideoResolution | Zoom | DefaultBootMode | Bitrate => 1
    case PowerOff | RecordStart | RecordStop | DisplayOn | DisplayOff | GetBatteryLife => 0
  }

  /** The URL-path templates; the longest is written in two pieces, which changes nothing about its value. */
  function Template(c: Command): (r: string)
    requires Defined(c)
    ensures |r| > 0 && r[0] != '/'
  {
    match c
    case PowerOff => "command/system/sleep"
    case Zoom => "command/digital_zoom" + "?range_pcnt={}"
    case VideoResolution => "setting/2/{}"
    case DefaultBootMode => "setting/53/{}"
    case Bitrate => "setting/62/{}"
    case RecordStart => "command/shutter?p=1"
    case RecordStop => "command/shutter?p=0"
    case DisplayOn => "setting/58/1"
    case DisplayOff => "setting/58/0"
    case GetBatteryLife => "setting/58/0"
  }

  /** The `'mapping'` entry of a definition, for the commands that have one. */
  function Mapping(c: Command): (r: Option<map<string, string>>)
    requires Defined(c)
    ensures r.Some? ==> Arity(c) == 1
  {
    match c
    case VideoResolution => Some(map["4k" := "1", "1440p" := "7", "1080p" := "9", "720p" := "12"])
    case DefaultBootMode => Some(map["video" := "0", "photo" := "1", "multishot" := "2"])
    case PowerOff | Zoom | Bitrate | RecordStart | RecordStop | DisplayOn | DisplayOff | GetBatteryLife => None
  }

  /** `definitions` lookup by exact, case-sensitive name. */
  function Lookup(name: string): (r: Option<Command>)
    ensures r.Some? ==> Name(r.value) == name && Defined(r.value)
  {
    match Tables.FirstIndex(Names(), name)
    case None => None
    case Some(i) => Some(Definitions[i])
  }

  /** The text before the one `{}` of a one-argument template; `zoom`'s is written in two pieces, like its template. */
  function FieldPrefix(c: Command): string
    requires Defined(c) && Arity(c) == 1
  {
    match c
    case Zoom => "command/digital_zoom" + "?range_pcnt="
    case VideoResolution => "setting/2/"
    case DefaultBootMode => "setting/53/"
    case Bitrate => "setting/62/"
  }

  /** No two tags share a name (`@enum.unique`). */
  lemma NameInjective(c: Command, d: Command)
    ensures Name(c) == Name(d) ==> c == d
  {
  }

  /** The dictionary's keys are exactly the defined tags, each once. */
  lemma DefinitionsExact(c: Command)
    ensures c in Definitions <==> Defined(c)
    ensures forall i, j | 0 <= i < j < |Definitions| :: Definitions[i] != Definitions[j]
  {
  }

  lemma NamesUnique()
    ensures Tables.Distinct(Names())
  {
    forall i, j | 0 <= i < j < |Definitions| ensures Names()[i] != Names()[j] {
      DefinitionsExact(Definitions[i]);
      NameInjective(Definitions[i], Definitions[j]);
    }
  }

  /** Looking up the name of a defined command finds it; looking up `wake` finds nothing. */
  lemma LookupName(c: Command)
    ensures Lookup(Name(c)) == if Defined(c) then Some(c) else None
  {
    DefinitionsExact(c);
    if Defined(c) {
      var k :| 0 <= k < |Definitions| && Definitions[k] == c;
      assert Names()[k] == Name(c);
      var i := Tables.FirstIndex(Names(), Name(c));
      NameInjective(Definitions[i.value], c);
    } else {
      forall k | 0 <= k < |Definitions| ensures Names()[k] != Name(c) {
        NameInjective(Definitions[k], c);
      }
    }
  }

  /** Lookup fails exactly on the strings that name no defined command, `wake` among them. */
  lemma LookupUnknown(name: string)
    ensures Lookup(name).None? <==> forall c: Command | Defined(c) :: Name(c) != name
  {
    if Lookup(name).None? {
      forall c: Command | Defined(c) ensures Name(c) != name {
        LookupName(c);
      }
    }
  }

  /** A one-argument template is its brace-free fixed prefix followed by one `{}`. */
  lemma FieldTemplateShape(c: Command)
    requires Defined(c) && Arity(c) == 1
    ensures BraceFree(FieldPrefix(c)) && Template(c) == FieldPrefix(c) + "{}"
  {
    match c
    case Zoom =>
      assert BraceFree(FieldPrefix(Zoom)) && Template(Zoom) == FieldPrefix(Zoom) + "{}";
    case VideoResolution =>
      assert BraceFree(FieldPrefix(VideoResolution)) && Template(VideoResolution) == FieldPrefix(VideoResolution) + "{}";
    case DefaultBootMode =>
      assert BraceFree(FieldPrefix(DefaultBootMode)) && Template(DefaultBootMode) == FieldPrefix(DefaultBootMode) + "{}";
    case Bitrate =>
      assert BraceFree(FieldPrefix(Bitrate)) && Template(Bitrate) == FieldPrefix(Bitrate) + "{}";
  }

  /** A template of a command without arguments contains no brace. */
  lemma PlainTemplateShape(c: Command)
    requires Defined(c) && Arity(c) == 0
    ensures BraceFree(Template(c))
  {
    match c
    case PowerOff => assert BraceFree(Template(PowerOff));
    case RecordStart => assert BraceFree(Template(RecordStart));
    case RecordStop => assert BraceFree(Template(RecordStop));
    case DisplayOn => assert BraceFree(Template(DisplayOn));
    case DisplayOff => assert BraceFree(Template(DisplayOff));
    case GetBatteryLife => assert BraceFree(Template(GetBatteryLife));
  }

  /** Each template has exactly as many `{}` fields as its command has arguments, and no other braces. */
  lemma TemplateFields(c: Command)
    requires Defined(c)
    ensures Formattable(Template(c)) && Placeholders(Template(c)) == Arity(c)
  {
    if Arity(c) == 1 {
      FieldTemplateShape(c);
      FormatOneField(FieldPrefix(c), "", [""]);
      assert FieldPrefix(c) + "{}" + "" == Template(c);
    } else {
      PlainTemplateShape(c);
      FormatBraceFree(Template(c), []);
    }
  }

  lemma FormatOneArgument(c: Command, a: string)
    requires Defined(c) && Arity(c) == 1
    ensures Format(Template(c), [a]) == Some(FieldPrefix(c) + a)
  {
    FieldTemplateShape(c);
    FormatOneField(FieldPrefix(c), "", [a]);
    assert FieldPrefix(c) + "{}" + "" == Template(c);
    assert FieldPrefix(c) + a + "" == FieldPrefix(c) + a;
  }

  lemma FormatNoArgument(c: Command, args: seq<string>)
    requires Defined(c) && Arity(c) == 0
    ensures Format(Template(c), args) == Some(Template(c))
  {
    PlainTemplateShape(c);
    FormatBraceFree(Template(c), args);
  }

  /**
   * Only `video_resolution` and `default_boot_mode` carry a mapping; each
   * takes one argument; `zoom` and `bitrate` take theirs unmapped.
   */
  lemma MappingCommands(c: Command)
    requires Defined(c)
    ensures Mapping(c).Some? <==> c in {VideoResolution, DefaultBootMode}
    ensures Mapping(c).Some? ==> Arity(c) == 1
    ensures Arity(c) == 1 && Mapping(c).None? <==> c in {Zoom, Bitrate}
  {
  }
}
