/**
 * GoPro.py's `Message`: an object whose `__init__` parses a tokenised
 * command line into its fields `command` and `args`, and whose
 * `_build_url` renders the request URL under the camera's `url`.
 */
module GoProMessage {
  import opened Wrappers
  import opened Exceptions
  import opened PyStr
  import opened CommandLine
  import opened GoProCatalog
  import Tables

  /** GoPro.py's `GoPro` object; `url` is computed from the address when it is constructed. */
  datatype GoPro = GoPro(ipAddress: string, macAddress: string, keepalivePeriod: int)

  /** `GoPro.url`: the base of every request URL, slash included. */
  function Url(gopro: GoPro): (r: string)
    ensures |r| > 0 && r[|r| - 1] == '/'
  {
    "http://" + gopro.ipAddress + "/gp/gpControl/"
  }

  datatype ParseError =
    | UnknownCommand(name: string)
    | ArityMismatch(command: Command, expected: nat, got: nat)
    | UnknownArgument(command: Command, arg: string)

  /**
   * The exception `__init__` actually raises for each rejection. The
   * arity and argument branches build their message with
   * `get_identifier()`, which reads the attribute `kind` that no message
   * has, so they raise `AttributeError` before their `ValueError`.
   */
  function Raised(e: ParseError): (r: PyException)
    ensures r == ValueError <==> e.UnknownCommand?
    ensures r != ValueError ==> r == AttributeError
  {
    match e
    case UnknownCommand(_) => ValueError
    case ArityMismatch(_, _, _) => AttributeError
    case UnknownArgument(_, _) => AttributeError
  }

  /** The fields of a message that `__init__` completed. */
  datatype Parsed = Parsed(command: Command, args: seq<string>)

  predicate WellFormed(p: Parsed) {
    && Defined(p.command)
    && |p.args| == Arity(p.command)
    && (Mapping(p.command).Some? ==> forall i | 0 <= i < |p.args| :: p.args[i] in Mapping(p.command).value.Values)
  }

  /** What `Message(body)` ends up holding, or why it raises. */
  function Parse(body: seq<string>): (r: Result<Parsed, ParseError>)
    requires |body| > 0
    ensures r.Success? ==> WellFormed(r.value) && Name(r.value.command) == body[0]
  {
    match Lookup(body[0])
    case None => Failure(UnknownCommand(body[0]))
    case Some(c) =>
      if |body| - 1 != Arity(c) then Failure(ArityMismatch(c, Arity(c), |body| - 1))
      else match Mapping(c)
        case None => Success(Parsed(c, body[1..]))
        case Some(m) =>
          Tables.MapArgsSuccess(m, body[1..]);
          match Tables.MapArgs(m, body[1..])
          case Failure(a) => Failure(UnknownArgument(c, a))
          case Success(args) => Success(Parsed(c, args))
  }

  /** The URL `_build_url` gives for a command and its arguments; `None` when the template finds too few arguments. */
  function RenderUrl(c: Command, args: seq<string>, gopro: GoPro): (r: Option<string>)
    requires Defined(c)
    ensures r.Some? <==> |args| >= Arity(c)
  {
    TemplateFields(c);
    FormatDefined(Template(c), args);
    Prepend(Url(gopro), Format(Template(c), args))
  }

  class Message {
    var command: Option<Command>
    var args: seq<string>

    /** The object before `__init__` has run: no command and no arguments. */
    constructor Blank()
      ensures command == None && args == []
    {
      command := None;
      args := [];
    }

    /**
     * The scan at the head of `__init__`: every entry of the catalog is
     * visited and each one whose name matches is stored into
     * `self.command`, so the last match stays; names are unique, so that is
     * the entry `Lookup` finds.
     */
    method ScanDefinitions(name: string)
      modifies this
      ensures command == Lookup(name) && args == old(args)
    {
      command := None;
      ghost var names := Names();
      for i := 0 to |Definitions|
        invariant command == match Tables.LastIndex(names[..i], name)
                             case None => None
                             case Some(k) => Some(Definitions[k])
        invariant args == old(args)
      {
        Tables.LastIndexExtend(names, name, i);
        if Name(Definitions[i]) == name {
          command := Some(Definitions[i]);
        }
      }
      assert names[..|Definitions|] == names;
      NamesUnique();
      Tables.LastIsFirst(names, name);
    }

    /**
     * The mapping loop at the end of `__init__`: `self.args` is rewritten
     * in place, position by position, to the codes `mapping` gives. The
     * first argument the mapping does not know is returned, with its
     * position; the arguments before it are then rewritten and the rest
     * are not.
     */
    method MapInPlace(mapping: map<string, string>) returns (unknown: Option<string>, ghost k: nat)
      modifies this
      ensures command == old(command)
      ensures unknown.None? ==> Tables.MapArgs(mapping, old(args)) == Success(args)
      ensures unknown.Some? ==>
        && Tables.MapArgs(mapping, old(args)) == Failure(unknown.value)
        && k < |old(args)| && old(args)[k] == unknown.value
        && (forall j | 0 <= j < k :: old(args)[j] in mapping)
        && Tables.MappedUpTo(mapping, old(args), k) == args
    {
      ghost var raw := args;
      k := 0;
      for i := 0 to |args|
        invariant |args| == |raw| && command == old(command)
        invariant forall j | 0 <= j < i :: raw[j] in mapping && args[j] == mapping[raw[j]]
        invariant args[i..] == raw[i..]
      {
        var arg := args[i];
        assert arg == raw[i];
        if arg !in mapping {
          Tables.MapArgsFirstUnknown(mapping, raw, i);
          k := i;
          assert Tables.MappedUpTo(mapping, raw, k) == args;
          return Some(arg), k;
        }
        args := args[i := mapping[arg]];
      }
      Tables.MapArgsSuccess(mapping, raw);
      assert args == Tables.MapArgs(mapping, raw).value;
      return None, k;
    }

    /**
     * `__init__(body)`: the scan fills `self.command`, the arity is
     * checked, the argument slice is copied into `self.args`, and that
     * list is rewritten in place through the mapping. The result is the
     * rejection raised, if any; the fields are left as they were at that
     * point.
     */
    method Init(body: seq<string>) returns (error: Option<ParseError>)
      requires |body| > 0
      modifies this
      ensures Parse(body).Success? ==> error.None? && command == Some(Parse(body).value.command) && args == Parse(body).value.args
      ensures Parse(body).Failure? ==> error == Some(Parse(body).error)
      ensures error == Some(UnknownCommand(body[0])) ==> command == None && args == old(args)
      ensures error.Some? && error.value.ArityMismatch? ==> command == Some(error.value.command) && args == old(args)
      ensures error.Some? && error.value.UnknownArgument? ==> command == Some(error.value.command) && args == body[1..]
    {
      ScanDefinitions(body[0]);
      if command.None? {
        return Some(UnknownCommand(body[0]));
      }
      var c := command.value;
      var arity := Arity(c);
      if |body[1..]| != arity {
        return Some(ArityMismatch(c, arity, |body[1..]|));
      }
      args := body[1..arity + 1];
      assert args == body[1..];
      if Mapping(c).Some? {
        MappingCommands(c);
        var unknown;
        ghost var k;
        unknown, k := MapInPlace(Mapping(c).value);
        if unknown.Some? {
          assert k == 0;
          return Some(UnknownArgument(c, unknown.value));
        }
      }
      return None;
    }

    /** `Message(body)`: a new message holding the parse of `body`, or the rejection. */
    static method New(body: seq<string>) returns (r: Result<Message, ParseError>)
      requires |body| > 0
      ensures r.Success? <==> Parse(body).Success?
      ensures r.Success? ==>
        && fresh(r.value)
        && r.value.command == Some(Parse(body).value.command)
        && r.value.args == Parse(body).value.args
      ensures r.Failure? ==> r.error == Parse(body).error
    {
      var m := new Message.Blank();
      var error := m.Init(body);
      if error.Some? {
        return Failure(error.value);
      }
      return Success(m);
    }

    /** `_build_url`: the camera's `url` followed by the template filled with `self.args`. */
    function BuildUrl(gopro: GoPro): (r: Option<string>)
      reads this
      requires command.Some? && Defined(command.value)
      ensures r.Some? <==> |args| >= Arity(command.value)
    {
      RenderUrl(command.value, args, gopro)
    }
  }

  /**
   * For a known command, parsing succeeds exactly when the argument count
   * equals the arity and, for a mapped command, every argument is a known
   * friendly value; the arguments are then the tokens or their codes.
   */
  lemma ParseKnownCommand(body: seq<string>, c: Command)
    requires |body| > 0 && Defined(c) && Name(c) == body[0]
    ensures Parse(body).Success? <==>
      |body| - 1 == Arity(c) && (Mapping(c).Some? ==> forall i | 1 <= i < |body| :: body[i] in Mapping(c).value)
    ensures Parse(body).Success? ==>
      && Parse(body).value.command == c
      && (Mapping(c).None? ==> Parse(body).value.args == body[1..])
      && (Mapping(c).Some? ==> forall i | 0 <= i < Arity(c) ::
            Parse(body).value.args[i] == Mapping(c).value[body[i + 1]])
  {
    LookupName(c);
    if Mapping(c).Some? && |body| - 1 == Arity(c) {
      var m := Mapping(c).value;
      Tables.MapArgsSuccess(m, body[1..]);
      assert (forall i | 0 <= i < |body[1..]| :: body[1..][i] in m) <==>
             (forall i | 1 <= i < |body| :: body[i] in m) by {
        assert forall i | 1 <= i < |body| :: body[i] == body[1..][i - 1];
      }
    }
  }

  /** A first token that names no defined command is rejected as unknown, with `ValueError`; `wake` is one such token. */
  lemma ParseUnknownCommand(body: seq<string>)
    requires |body| > 0
    ensures Parse(body) == Failure(UnknownCommand(body[0])) <==> forall c: Command | Defined(c) :: Name(c) != body[0]
    ensures Parse(body).Failure? && Parse(body).error.UnknownCommand? ==> Raised(Parse(body).error) == ValueError
  {
    LookupUnknown(body[0]);
  }

  /** `wake` names an enum member but no entry of `definitions`, so it is rejected as a command that does not exist. */
  lemma ParseWake(body: seq<string>)
    requires |body| > 0 && body[0] == Name(Wake)
    ensures Parse(body) == Failure(UnknownCommand("wake"))
  {
    LookupName(Wake);
  }

  /** A wrong argument count and an unknown friendly value both surface as `AttributeError`. */
  lemma ParseRejections(body: seq<string>)
    requires |body| > 0 && Parse(body).Failure?
    ensures !Parse(body).error.UnknownCommand? ==> Raised(Parse(body).error) == AttributeError
    ensures Parse(body).error.ArityMismatch? ==>
      Name(Parse(body).error.command) == body[0] && Parse(body).error.got == |body| - 1 != Parse(body).error.expected
    ensures Parse(body).error.UnknownArgument? ==>
      Name(Parse(body).error.command) == body[0] && Parse(body).error.arg in body[1..]
  {
    match Lookup(body[0])
    case None =>
    case Some(c) =>
      if |body| - 1 == Arity(c) && Mapping(c).Some? {
        var m := Mapping(c).value;
        Tables.MapArgsSuccess(m, body[1..]);
      }
  }

  /**
   * A message with as many arguments as its arity renders: the base URL
   * and the fixed path, or the base URL, the path prefix and the argument.
   */
  lemma RenderUrlLayout(c: Command, args: seq<string>, gopro: GoPro)
    requires Defined(c) && |args| == Arity(c)
    ensures Arity(c) == 0 ==> RenderUrl(c, args, gopro) == Some(Url(gopro) + Template(c))
    ensures Arity(c) == 1 ==> RenderUrl(c, args, gopro) == Some(Url(gopro) + FieldPrefix(c) + args[0])
  {
    if Arity(c) == 0 {
      FormatNoArgument(c, args);
    } else {
      assert args == [args[0]];
      FormatOneArgument(c, args[0]);
      assert Url(gopro) + (FieldPrefix(c) + args[0]) == Url(gopro) + FieldPrefix(c) + args[0];
    }
  }

  /** `get_battery_life` is sent to the same URL as `display_off`: it turns the display off rather than reading the battery. */
  lemma BatteryLifeIsDisplayOff(gopro: GoPro)
    ensures RenderUrl(GetBatteryLife, [], gopro) == RenderUrl(DisplayOff, [], gopro)
    ensures RenderUrl(GetBatteryLife, [], gopro) == Some(Url(gopro) + "setting/58/0")
  {
    RenderUrlLayout(GetBatteryLife, [], gopro);
  }

  datatype LineOutcome =
    | Accepted(parsed: Parsed)     // the message is built; the loop sends it
    | Skipped(error: ParseError)   // caught by `except ValueError`
    | Crashed(raised: PyException) // not caught; the program stops

  /** The loop body of GoPro.py's `main` up to sending: tokenise, build the message, catch `ValueError`. */
  function HandleLine(line: string): (r: LineOutcome)
    ensures r.Skipped? ==> r.error.UnknownCommand?
    ensures r.Crashed? ==> r.raised == AttributeError
  {
    match Parse(Tokenise(line))
    case Success(p) => Accepted(p)
    case Failure(e) => if Raised(e) == ValueError then Skipped(e) else Crashed(Raised(e))
  }

  /** Only unknown commands are skipped; any other rejected line ends the program with `AttributeError`. */
  lemma HandleLineCrashes(line: string)
    ensures HandleLine(line).Crashed? <==>
      Parse(Tokenise(line)).Failure? && !Parse(Tokenise(line)).error.UnknownCommand?
    ensures HandleLine(line).Crashed? ==> HandleLine(line).raised == AttributeError
  {
  }

  /** The loop body as evidently intended: every rejected line is reported and skipped. */
  function HandleLineIntended(line: string): LineOutcome {
    match Parse(Tokenise(line))
    case Success(p) => Accepted(p)
    case Failure(e) => Skipped(e)
  }

  /** The line `zoom`, missing its argument, ends the program as written and is skipped as intended. */
  lemma HandleLineZoom()
    ensures HandleLine("zoom") == Crashed(AttributeError)
    ensures HandleLineIntended("zoom") == Skipped(ArityMismatch(Zoom, 1, 0))
  {
    var none: string := [];
    assert AllSpace(none) && none + "zoom" + none == "zoom";
    TokeniseWords(none, ["zoom"], none);
    ParseZoomMissing();
  }

  /** `zoom` without its argument is an arity mismatch: one expected, none given. */
  lemma ParseZoomMissing()
    ensures Parse(["zoom"]) == Failure(ArityMismatch(Zoom, 1, 0))
  {
    LookupName(Zoom);
  }

  /** The intended loop body accepts exactly the lines that parse and skips every other one with its reason. */
  lemma HandleLineIntendedTotal(line: string)
    ensures !HandleLineIntended(line).Crashed?
    ensures HandleLineIntended(line).Accepted? <==> Parse(Tokenise(line)).Success?
    ensures HandleLineIntended(line).Skipped? ==> Parse(Tokenise(line)) == Failure(HandleLineIntended(line).error)
  {
  }
}
