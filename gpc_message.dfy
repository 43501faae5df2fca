/**
 * gpc.py's `Message`: parsing a tokenised command line into a command and
 * its (mapped) arguments with `Message.from_text`, and rendering the
 * request URL with `Message._build_url`.
 */
module GpcMessage {
  import opened Wrappers
  import opened Exceptions
  import opened PyStr
  import opened GpcCatalog
  import Tables

  /** gpc.py's `GoPro` object: the camera's settings, never changed after construction. */
  datatype GoPro = GoPro(apSsid: string, apPassword: string, ipAddress: string, macAddress: string, keepalivePeriod: int)

  datatype Message = Message(command: Command, args: seq<string>)

  /** Why `from_text` rejects a command line. */
  datatype ParseError =
    | UnknownCommand(name: string)
    | ArityMismatch(command: Command, expected: nat, got: nat)
    | UnknownArgument(command: Command, arg: string)

  /**
   * The exception `from_text` actually raises for each rejection. Only the
   * unknown-command branch gets as far as its `ValueError`: the other two
   * build their message from `self`, which is unbound inside the
   * classmethod, so they raise `NameError` instead.
   */
  function Raised(e: ParseError): (r: PyException)
    ensures r == ValueError <==> e.UnknownCommand?
    ensures r != ValueError ==> r == NameError
  {
    match e
    case UnknownCommand(_) => ValueError
    case ArityMismatch(_, _, _) => NameError
    case UnknownArgument(_, _) => NameError
  }

  /** The invariant of a parsed message: one argument per place in the template, each a setting code when the command maps its values. */
  predicate WellFormed(m: Message) {
    && |m.args| == Arity(m.command)
    && (Mapping(m.command).Some? ==> forall i | 0 <= i < |m.args| :: m.args[i] in Mapping(m.command).value.Values)
  }

  /**
   * What `Message.from_text(tokens)` returns or raises: look the first
   * token up by name, check the number of remaining tokens against the
   * arity, and rewrite the arguments through the command's mapping if it
   * has one.
   */
  function Parse(tokens: seq<string>): (r: Result<Message, ParseError>)
    requires |tokens| > 0
    ensures r.Success? ==> WellFormed(r.value) && Name(r.value.command) == tokens[0]
  {
    match Lookup(tokens[0])
    case None => Failure(UnknownCommand(tokens[0]))
    case Some(c) =>
      if |tokens| - 1 != Arity(c) then Failure(ArityMismatch(c, Arity(c), |tokens| - 1))
      else match Mapping(c)
        case None => Success(Message(c, tokens[1..]))
        case Some(m) =>
          Tables.MapArgsSuccess(m, tokens[1..]);
          match Tables.MapArgs(m, tokens[1..])
          case Failure(a) => Failure(UnknownArgument(c, a))
          case Success(args) => Success(Message(c, args))
  }

  /**
   * The scan at the head of `Message.from_text`: every entry of the catalog
   * is visited and the last one whose name matches is kept. Names are
   * unique, so that is the entry `Lookup` finds.
   */
  method ScanDefinitions(name: string) returns (command: Option<Command>)
    ensures command == Lookup(name)
  {
    command := None;
    ghost var names := Names();
    for i := 0 to |Definitions|
      invariant command == match Tables.LastIndex(names[..i], name)
                           case None => None
                           case Some(k) => Some(Definitions[k])
    {
      Tables.LastIndexExtend(names, name, i);
      if Name(Definitions[i]) == name {
        command := Some(Definitions[i]);
      }
    }
    assert names[..|Definitions|] == names;
    NamesUnique();
    Tables.LastIsFirst(Names(), name);
  }

  /**
   * The loop at the end of `Message.from_text`: the argument list is
   * rewritten in place, position by position, to the codes `mapping` gives,
   * and the first argument it does not know ends the loop with an error.
   */
  method MapInPlace(mapping: map<string, string>, raw: seq<string>) returns (r: Result<seq<string>, string>)
    ensures r == Tables.MapArgs(mapping, raw)
  {
    var args := raw;
    for i := 0 to |args|
      invariant |args| == |raw|
      invariant forall k | 0 <= k < i :: raw[k] in mapping && args[k] == mapping[raw[k]]
      invariant args[i..] == raw[i..]
    {
      var arg := args[i];
      assert arg == raw[i];
      if arg !in mapping {
        Tables.MapArgsFirstUnknown(mapping, raw, i);
        return Failure(arg);
      }
      args := args[i := mapping[arg]];
    }
    Tables.MapArgsSuccess(mapping, raw);
    assert args == Tables.MapArgs(mapping, raw).value;
    return Success(args);
  }

  /**
   * `Message.from_text`, step by step as gpc.py runs it: the scan for the
   * command, the arity check, a copy of the argument slice, and the
   * in-place rewrite of that copy through the mapping. The caller's token
   * list is a value here, so the copy leaves it as it was.
   */
  method FromText(messageText: seq<string>) returns (r: Result<Message, ParseError>)
    requires |messageText| > 0
    ensures r == Parse(messageText)
  {
    var command := ScanDefinitions(messageText[0]);
    if command.None? {
      return Failure(UnknownCommand(messageText[0]));
    }
    var c := command.value;
    var arity := Arity(c);
    if |messageText[1..]| != arity {
      return Failure(ArityMismatch(c, arity, |messageText[1..]|));
    }
    var args := messageText[1..arity + 1];
    assert args == messageText[1..];
    if Mapping(c).Some? {
      var mapped := MapInPlace(Mapping(c).value, args);
      if mapped.Failure? {
        return Failure(UnknownArgument(c, mapped.error));
      }
      args := mapped.value;
    }
    return Success(Message(c, args));
  }

  /** A first token that names no command is rejected as unknown, and only such a token. */
  lemma ParseUnknownCommand(tokens: seq<string>)
    requires |tokens| > 0
    ensures Parse(tokens) == Failure(UnknownCommand(tokens[0])) <==> forall c: Command :: Name(c) != tokens[0]
  {
    LookupUnknown(tokens[0]);
  }

  /**
   * For a known command, parsing succeeds exactly when the argument count
   * equals the arity and, for a mapped command, every argument is a known
   * friendly value. The message then holds that command and, argument by
   * argument, the token itself or its code.
   */
  lemma ParseKnownCommand(tokens: seq<string>, c: Command)
    requires |tokens| > 0 && Name(c) == tokens[0]
    ensures Parse(tokens).Success? <==>
      |tokens| - 1 == Arity(c) && (Mapping(c).Some? ==> forall i | 1 <= i < |tokens| :: tokens[i] in Mapping(c).value)
    ensures Parse(tokens).Success? ==>
      && Parse(tokens).value.command == c
      && |Parse(tokens).value.args| == Arity(c)
      && (Mapping(c).None? ==> Parse(tokens).value.args == tokens[1..])
      && (Mapping(c).Some? ==> forall i | 0 <= i < Arity(c) ::
            Parse(tokens).value.args[i] == Mapping(c).value[tokens[i + 1]])
  {
    LookupName(c);
    if Mapping(c).Some? && |tokens| - 1 == Arity(c) {
      var m := Mapping(c).value;
      Tables.MapArgsSuccess(m, tokens[1..]);
      assert (forall i | 0 <= i < |tokens[1..]| :: tokens[1..][i] in m) <==>
             (forall i | 1 <= i < |tokens| :: tokens[i] in m) by {
        assert forall i | 1 <= i < |tokens| :: tokens[i] == tokens[1..][i - 1];
      }
    }
  }

  /** A wrong number of arguments is rejected with the expected and the actual count; in gpc.py that surfaces as `NameError`. */
  lemma ParseArityMismatch(tokens: seq<string>, c: Command)
    requires |tokens| > 0 && Name(c) == tokens[0] && |tokens| - 1 != Arity(c)
    ensures Parse(tokens) == Failure(ArityMismatch(c, Arity(c), |tokens| - 1))
    ensures Raised(Parse(tokens).error) == NameError
  {
    LookupName(c);
  }

  /**
   * A mapped command is rejected on its first argument that the mapping
   * does not know, again surfacing as `NameError`.
   */
  lemma ParseUnknownArgument(tokens: seq<string>, c: Command, k: nat)
    requires |tokens| > 0 && Name(c) == tokens[0] && |tokens| - 1 == Arity(c) && Mapping(c).Some?
    requires 1 <= k < |tokens| && tokens[k] !in Mapping(c).value
    ensures Parse(tokens) == Failure(UnknownArgument(c, tokens[k]))
    ensures Raised(Parse(tokens).error) == NameError
  {
    LookupName(c);
    Tables.MapArgsFirstUnknown(Mapping(c).value, tokens[1..], k - 1);
  }

  /** The base of every request URL. */
  function BaseUrl(gopro: GoPro): string {
    "http://" + gopro.ipAddress + "/gp/gpControl"
  }

  /**
   * `Message._build_url`: the base URL followed by the command's template
   * with the arguments put into its `{}` fields in order. `None` is the
   * error `str.format` raises when arguments are missing.
   */
  function BuildUrl(m: Message, gopro: GoPro): (r: Option<string>)
    ensures r.Some? <==> |m.args| >= Arity(m.command)
  {
    TemplateFields(m.command);
    FormatDefined(Template(m.command), m.args);
    Prepend(BaseUrl(gopro), Format(Template(m.command), m.args))
  }

  /**
   * A message with as many arguments as its command's arity, as every
   * parsed message has, always renders: a command without arguments gives the
   * base URL followed by its fixed path, a one-argument command gives the
   * base URL and its path prefix followed by the argument.
   */
  lemma BuildUrlWellFormed(m: Message, gopro: GoPro)
    requires |m.args| == Arity(m.command)
    ensures Arity(m.command) == 0 ==> BuildUrl(m, gopro) == Some(BaseUrl(gopro) + Template(m.command))
    ensures Arity(m.command) == 1 ==> BuildUrl(m, gopro) == Some(BaseUrl(gopro) + FieldPrefix(m.command) + m.args[0])
  {
    if Arity(m.command) == 0 {
      FormatNoArgument(m.command, m.args);
    } else {
      assert m.args == [m.args[0]];
      FormatOneArgument(m.command, m.args[0]);
      assert BaseUrl(gopro) + (FieldPrefix(m.command) + m.args[0]) == BaseUrl(gopro) + FieldPrefix(m.command) + m.args[0];
    }
  }

  /** Two parsed messages of one command with different arguments never render to the same URL. */
  lemma BuildUrlInjective(m1: Message, m2: Message, gopro: GoPro)
    requires WellFormed(m1) && WellFormed(m2) && m1.command == m2.command
    requires BuildUrl(m1, gopro) == BuildUrl(m2, gopro)
    ensures m1 == m2
  {
    BuildUrlWellFormed(m1, gopro);
    BuildUrlWellFormed(m2, gopro);
    if Arity(m1.command) == 1 {
      var p := BaseUrl(gopro) + FieldPrefix(m1.command);
      assert p + m1.args[0] == p + m2.args[0];
      assert m1.args[0] == (p + m1.args[0])[|p|..];
      assert m2.args[0] == (p + m2.args[0])[|p|..];
      assert m1.args == [m1.args[0]] && m2.args == [m2.args[0]];
    }
  }

  /** `video_resolution 4k` selects the code of 4K video. */
  lemma ParseVideoResolution()
    ensures Parse(["video_resolution", "4k"]) == Success(Message(VideoResolution, ["1"]))
  {
    var tokens := ["video_resolution", "4k"];
    var m := Mapping(VideoResolution).value;
    assert tokens[1] == "4k" && "4k" in m && m["4k"] == "1";
    ParseKnownCommand(tokens, VideoResolution);
    var r := Parse(tokens).value;
    assert r.args == [r.args[0]] && r.args[0] == "1";
  }

  /** An unmapped argument is passed through as typed. */
  lemma ParseZoom()
    ensures Parse(["zoom", "50"]) == Success(Message(Zoom, ["50"]))
  {
    ParseKnownCommand(["zoom", "50"], Zoom);
  }

  /** A missing argument is an arity error. */
  lemma ParseZoomMissing()
    ensures Parse(["zoom"]) == Failure(ArityMismatch(Zoom, 1, 0))
  {
    ParseArityMismatch(["zoom"], Zoom);
  }

  /** A friendly value outside the mapping is rejected. */
  lemma ParseVideoResolutionUnknown()
    ensures Parse(["video_resolution", "8k"]) == Failure(UnknownArgument(VideoResolution, "8k"))
  {
    ParseUnknownArgument(["video_resolution", "8k"], VideoResolution, 1);
  }

  /** The empty token, all a blank line leaves, names no command. */
  lemma ParseEmptyToken()
    ensures Parse([""]) == Failure(UnknownCommand(""))
  {
    forall c: Command ensures Name(c) != "" {
      assert |Name(c)| > 0;
    }
    ParseUnknownCommand([""]);
  }

  /** The URLs some of the messages above are sent to. */
  lemma BuildUrlSettingExamples(gopro: GoPro)
    ensures BuildUrl(Message(VideoResolution, ["1"]), gopro) == Some(BaseUrl(gopro) + "/setting/2/1")
    ensures BuildUrl(Message(StreamBitrate, ["2500000"]), gopro) == Some(BaseUrl(gopro) + "/setting/62/2500000")
  {
    BuildUrlWellFormed(Message(VideoResolution, ["1"]), gopro);
    assert BaseUrl(gopro) + "/setting/2/" + "1" == BaseUrl(gopro) + "/setting/2/1";
    BuildUrlWellFormed(Message(StreamBitrate, ["2500000"]), gopro);
    assert BaseUrl(gopro) + "/setting/62/" + "2500000" == BaseUrl(gopro) + "/setting/62/2500000";
  }

  lemma BuildUrlQueryExamples(gopro: GoPro)
    ensures BuildUrl(Message(GetInfo, []), gopro) == Some(BaseUrl(gopro))
    ensures BuildUrl(Message(GetBatteryLevel, []), gopro) == BuildUrl(Message(GetStatus, []), gopro)
  {
    BuildUrlWellFormed(Message(GetInfo, []), gopro);
    assert BaseUrl(gopro) + "" == BaseUrl(gopro);
  }
}
