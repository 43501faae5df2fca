/**
 * How the two programs' command layers relate: GoPro.py's catalog is a
 * subset of gpc.py's under the same names (apart from `get_battery_life`
 * and `bitrate`), its templates are gpc.py's without the leading slash,
 * and the slash it puts into the base URL instead makes the two render the
 * same URL for the same command line.
 */
module Variants {
  import opened Wrappers
  import opened PyStr
  import G = GpcCatalog
  import P = GoProCatalog
  import GM = GpcMessage
  import PM = GoProMessage

  /** The gpc.py command of the same name, if there is one. */
  function Counterpart(c: P.Command): Option<G.Command> {
    match c
    case Wake => Some(G.Wake)
    case RecordStart => Some(G.RecordStart)
    case RecordStop => Some(G.RecordStop)
    case VideoResolution => Some(G.VideoResolution)
    case Zoom => Some(G.Zoom)
    case PowerOff => Some(G.PowerOff)
    case DisplayOn => Some(G.DisplayOn)
    case DisplayOff => Some(G.DisplayOff)
    case DefaultBootMode => Some(G.DefaultBootMode)
    case GetBatteryLife | Bitrate => None
  }

  /**
   * `Counterpart` pairs commands by name: the command it gives has the
   * same name, and where it gives none, no gpc.py command has that name;
   * that is the case only for `get_battery_life` and `bitrate`.
   */
  lemma CounterpartByName(c: P.Command)
    ensures Counterpart(c).Some? ==> G.Name(Counterpart(c).value) == P.Name(c)
    ensures Counterpart(c).None? <==> forall d: G.Command :: G.Name(d) != P.Name(c)
    ensures Counterpart(c).None? <==> c in {P.GetBatteryLife, P.Bitrate}
  {
    if Counterpart(c).Some? {
      assert G.Name(Counterpart(c).value) == P.Name(c);
    }
  }

  /** A defined GoPro.py command and its gpc.py namesake have the same arity and mapping, and templates that differ by the leading `/`. */
  lemma SharedEntry(c: P.Command)
    requires P.Defined(c) && Counterpart(c).Some?
    ensures G.Template(Counterpart(c).value) == "/" + P.Template(c)
    ensures G.Arity(Counterpart(c).value) == P.Arity(c) && G.Mapping(Counterpart(c).value) == P.Mapping(c)
  {
    if c in {P.VideoResolution, P.DefaultBootMode, P.DisplayOn, P.DisplayOff} {
      SettingSlashed(c);
    } else if c in {P.RecordStart, P.RecordStop} {
      ShutterSlashed(c);
    } else if c == P.PowerOff {
      assert G.Template(G.PowerOff) == "/" + P.Template(P.PowerOff);
    } else {
      assert c == P.Zoom;
      ZoomSlashed();
    }
  }

  lemma SettingSlashed(c: P.Command)
    requires c in {P.VideoResolution, P.DefaultBootMode, P.DisplayOn, P.DisplayOff}
    ensures G.Template(Counterpart(c).value) == "/" + P.Template(c)
  {
    match c
    case VideoResolution => assert G.Template(G.VideoResolution) == "/" + P.Template(P.VideoResolution);
    case DefaultBootMode => assert G.Template(G.DefaultBootMode) == "/" + P.Template(P.DefaultBootMode);
    case DisplayOn => assert G.Template(G.DisplayOn) == "/" + P.Template(P.DisplayOn);
    case DisplayOff => assert G.Template(G.DisplayOff) == "/" + P.Template(P.DisplayOff);
  }

  lemma ShutterSlashed(c: P.Command)
    requires c in {P.RecordStart, P.RecordStop}
    ensures G.Template(Counterpart(c).value) == "/" + P.Template(c)
  {
    match c
    case RecordStart => assert G.Template(G.RecordStart) == "/" + P.Template(P.RecordStart);
    case RecordStop => assert G.Template(G.RecordStop) == "/" + P.Template(P.RecordStop);
  }

  lemma ZoomSlashed()
    ensures G.Template(G.Zoom) == "/" + P.Template(P.Zoom)
  {
    var front, back := "command/digital_zoom", "?range_pcnt={}";
    assert "/" + (front + back) == ("/" + front) + back;
    assert "/" + front == "/command/digital_zoom";
  }

  /** For a shared command and the same arguments, both programs send the request to the same URL. */
  lemma SameUrl(c: P.Command, args: seq<string>, gpc: GM.GoPro, older: PM.GoPro)
    requires P.Defined(c) && Counterpart(c).Some?
    requires gpc.ipAddress == older.ipAddress
    ensures GM.BuildUrl(GM.Message(Counterpart(c).value, args), gpc) == PM.RenderUrl(c, args, older)
  {
    SharedEntry(c);
    SlashedTemplateSameUrl(c, Counterpart(c).value, args, gpc, older);
  }

  /** Whenever a gpc.py template is a GoPro.py template with a `/` in front, the two render the same URL. */
  lemma SlashedTemplateSameUrl(c: P.Command, d: G.Command, args: seq<string>, gpc: GM.GoPro, older: PM.GoPro)
    requires P.Defined(c) && G.Template(d) == "/" + P.Template(c)
    requires gpc.ipAddress == older.ipAddress
    ensures GM.BuildUrl(GM.Message(d, args), gpc) == PM.RenderUrl(c, args, older)
  {
    SlashMoves(GM.BaseUrl(gpc), P.Template(c), args);
    assert PM.Url(older) == GM.BaseUrl(gpc) + "/";
  }

  /** A `/` at the head of the template renders the same as a `/` at the end of the base. */
  lemma SlashMoves(base: string, template: string, args: seq<string>)
    ensures Prepend(base, Format("/" + template, args)) == Prepend(base + "/", Format(template, args))
  {
    FormatPrefix("/", template, args);
    match Format(template, args)
    case None =>
    case Some(t) => assert base + ("/" + t) == base + "/" + t;
  }

  /**
   * A command line whose first token names a command in both programs is
   * parsed the same way by both: the same arguments on success, the same
   * kind of rejection with the same counts or argument otherwise.
   */
  lemma SameParse(body: seq<string>, c: P.Command)
    requires |body| > 0 && P.Defined(c) && P.Name(c) == body[0] && Counterpart(c).Some?
    ensures GM.Parse(body).Success? <==> PM.Parse(body).Success?
    ensures GM.Parse(body).Success? ==>
      GM.Parse(body).value.command == Counterpart(c).value && PM.Parse(body).value.command == c &&
      GM.Parse(body).value.args == PM.Parse(body).value.args
    ensures GM.Parse(body).Failure? ==>
      match (GM.Parse(body).error, PM.Parse(body).error)
      case (ArityMismatch(_, e1, g1), ArityMismatch(_, e2, g2)) => e1 == e2 && g1 == g2
      case (UnknownArgument(_, a1), UnknownArgument(_, a2)) => a1 == a2
      case _ => false
  {
    var d := Counterpart(c).value;
    CounterpartByName(c);
    SharedEntry(c);
    G.LookupName(d);
    P.LookupName(c);
  }

  /** `wake` is a command of gpc.py but a rejected line in GoPro.py, although both enums have it. */
  lemma WakeOnlyInGpc()
    ensures GM.Parse(["wake"]) == Success(GM.Message(G.Wake, []))
    ensures PM.Parse(["wake"]) == Failure(PM.UnknownCommand("wake"))
  {
    GM.ParseKnownCommand(["wake"], G.Wake);
    PM.ParseWake(["wake"]);
  }

  /** GoPro.py's `bitrate` is gpc.py's `stream_bitrate` under another name: the same setting, sent to the same URL. */
  lemma BitrateRenamed(args: seq<string>, gpc: GM.GoPro, older: PM.GoPro)
    requires gpc.ipAddress == older.ipAddress
    ensures G.Name(G.StreamBitrate) != P.Name(P.Bitrate)
    ensures GM.BuildUrl(GM.Message(G.StreamBitrate, args), gpc) == PM.RenderUrl(P.Bitrate, args, older)
  {
    BitrateSlashed();
    SlashedTemplateSameUrl(P.Bitrate, G.StreamBitrate, args, gpc, older);
  }

  lemma BitrateSlashed()
    ensures G.Template(G.StreamBitrate) == "/" + P.Template(P.Bitrate)
  {
  }
}
