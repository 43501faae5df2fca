/**
 * gpc.py's `Message.send_to`: what a parsed message does and what it
 * replies. The camera's HTTP interface is a parameter `get`, the reply the
 * camera gives to a GET of a URL; the UDP wake-up is recorded as an effect
 * carrying its payload.
 */
module GpcDispatch {
  import opened Wrappers
  import opened Exceptions
  import opened PyBytes
  import opened GpcCatalog
  import opened GpcMessage
  import WakeOnLan

  /**
   * An HTTP reply as far as the command layer looks at it: its status code
   * and, when its body is JSON with a `status` object, that object's
   * numeric fields.
   */
  datatype Response = Response(statusCode: int, status: Option<map<string, int>>)

  /** What `send_to` returns: a string, a status field, or the reply object itself. */
  datatype Reply = Text(text: string) | Field(value: int) | Http(response: Response)

  /** What `send_to` does to the outside world, in order. */
  datatype Effect =
    | WakeSent(payload: seq<byte>, host: string, port: nat)
    | HttpGet(url: string)

  /** The exceptions `send_to` lets escape. */
  datatype Fault =
    | PayloadNotHex      // `ValueError`: `bytes.fromhex` rejects the configured MAC address
    | UrlNotFormattable  // `IndexError`: `str.format` finds too few arguments for the template
    | RequestFailed      // `requests.RequestException`: the GET got no reply (connection error, time-out)
    | StatusUnreadable   // the reply has no JSON `status` object with a field `2`

  datatype Outcome = Outcome(effects: seq<Effect>, result: Result<Reply, Fault>)

  /**
   * The camera's side of `requests.get`: the reply to a GET of a URL, or
   * `None` when the request raises instead of returning.
   */
  type Camera = string -> Option<Response>

  /** `send_wake_on_lan(gopro)`: the magic packet broadcast to the camera's address on the Wake-on-LAN port. */
  function SendWakeOnLan(gopro: GoPro): (r: Outcome)
    ensures r.result.Success? <==> r.effects != []
    ensures forall e | e in r.effects :: e.WakeSent? && e.port == 9
  {
    match WakeOnLan.WakePayload(gopro.macAddress)
    case None => Outcome([], Failure(PayloadNotHex))
    case Some(p) => Outcome([WakeSent(p, gopro.ipAddress, WakeOnLan.WakePort)], Success(Text("")))
  }

  /**
   * The general branch of `send_to`: a GET of the message's URL, whose
   * reply is returned as it is, except that for `stream` only whether the
   * camera answered 200 is kept, as `'1'` or `'0'`.
   */
  function SendRequest(m: Message, gopro: GoPro, get: Camera): (r: Outcome)
    ensures r.effects == [] <==> r.result == Failure(UrlNotFormattable)
    ensures forall e | e in r.effects :: e.HttpGet? && Some(e.url) == BuildUrl(m, gopro)
  {
    match BuildUrl(m, gopro)
    case None => Outcome([], Failure(UrlNotFormattable))
    case Some(url) =>
      Outcome([HttpGet(url)],
        match get(url)
        case None => Failure(RequestFailed)
        case Some(reply) =>
          if m.command == Stream then Success(Text(if reply.statusCode == 200 then "1" else "0"))
          else Success(Http(reply)))
  }

  /** Field `2` of the `status` object of a reply. */
  function BatteryField(reply: Reply): (r: Result<Reply, Fault>)
    ensures r.Success? <==> reply.Http? && reply.response.status.Some? && "2" in reply.response.status.value
    ensures r.Success? ==> r.value == Field(reply.response.status.value["2"])
  {
    match reply
    case Http(Response(_, Some(status))) =>
      if "2" in status then Success(Field(status["2"])) else Failure(StatusUnreadable)
    case _ => Failure(StatusUnreadable)
  }

  /**
   * `send_to`: `wake` sends the magic packet and replies `''`;
   * `get_battery_level` sends a `get_status` message and replies field `2`
   * of the status object; every other command is a GET.
   */
  function SendTo(m: Message, gopro: GoPro, get: Camera): (r: Outcome)
    ensures |r.effects| <= 1
  {
    if m.command == Wake then SendWakeOnLan(gopro)
    else if m.command == GetBatteryLevel then
      var status := SendRequest(Message(GetStatus, []), gopro, get);
      match status.result
      case Failure(f) => status
      case Success(reply) => Outcome(status.effects, BatteryField(reply))
    else SendRequest(m, gopro, get)
  }

  /**
   * `wake` makes no HTTP request. With a decodable MAC address it sends
   * one packet, the magic packet for that address, to port 9 and replies
   * `''`; otherwise the `ValueError` escapes before anything is sent.
   */
  lemma SendToWake(m: Message, gopro: GoPro, get: Camera)
    requires m.command == Wake
    ensures forall e | e in SendTo(m, gopro, get).effects :: !e.HttpGet?
    ensures WakeOnLan.WakePayload(gopro.macAddress).Some? ==>
      && SendTo(m, gopro, get).effects == [WakeSent(WakeOnLan.WakePayload(gopro.macAddress).value, gopro.ipAddress, 9)]
      && SendTo(m, gopro, get).result == Success(Text(""))
    ensures WakeOnLan.WakePayload(gopro.macAddress).None? ==>
      SendTo(m, gopro, get) == Outcome([], Failure(PayloadNotHex))
  {
  }

  /**
   * `get_battery_level` makes exactly the `/status` request and replies the
   * battery field of its reply; it fails when the GET does or when the
   * field is missing.
   */
  lemma SendToBattery(m: Message, gopro: GoPro, get: Camera)
    requires m.command == GetBatteryLevel
    ensures SendTo(m, gopro, get).effects == [HttpGet(BaseUrl(gopro) + "/status")]
    ensures var r := get(BaseUrl(gopro) + "/status");
      SendTo(m, gopro, get).result ==
        if r.None? then Failure(RequestFailed)
        else if r.value.status.Some? && "2" in r.value.status.value then Success(Field(r.value.status.value["2"]))
        else Failure(StatusUnreadable)
  {
    BuildUrlWellFormed(Message(GetStatus, []), gopro);
  }

  /**
   * A well-formed `stream` message makes one GET of its URL and replies
   * `'1'` exactly when the camera answers 200, `'0'` when it answers
   * anything else.
   */
  lemma SendToStream(m: Message, gopro: GoPro, get: Camera)
    requires m.command == Stream && WellFormed(m)
    ensures var url := BaseUrl(gopro) + Template(Stream);
      && SendTo(m, gopro, get).effects == [HttpGet(url)]
      && SendTo(m, gopro, get).result ==
           if get(url).None? then Failure(RequestFailed)
           else Success(Text(if get(url).value.statusCode == 200 then "1" else "0"))
    ensures SendTo(m, gopro, get).result == Success(Text("1")) <==>
      get(BaseUrl(gopro) + Template(Stream)).Some? && get(BaseUrl(gopro) + Template(Stream)).value.statusCode == 200
  {
    BuildUrlWellFormed(m, gopro);
  }

  /** Every other well-formed message makes one GET of its own URL and replies the camera's reply unchanged. */
  lemma SendToOther(m: Message, gopro: GoPro, get: Camera)
    requires m.command !in {Wake, GetBatteryLevel, Stream} && WellFormed(m)
    ensures BuildUrl(m, gopro).Some?
    ensures var url := BuildUrl(m, gopro).value;
      SendTo(m, gopro, get) ==
        Outcome([HttpGet(url)], if get(url).None? then Failure(RequestFailed) else Success(Http(get(url).value)))
  {
    BuildUrlWellFormed(m, gopro);
  }

  /**
   * A well-formed message never fails on its URL. It fails only for
   * `wake` (an undecodable MAC address), for `get_battery_level` (a reply
   * without the field), or when its GET fails; if every GET returns, only
   * the first two remain.
   */
  lemma SendToFaults(m: Message, gopro: GoPro, get: Camera)
    requires WellFormed(m)
    ensures SendTo(m, gopro, get).result != Failure(UrlNotFormattable)
    ensures SendTo(m, gopro, get).result.Failure? ==>
      m.command in {Wake, GetBatteryLevel} || SendTo(m, gopro, get).result.error == RequestFailed
    ensures SendTo(m, gopro, get).result == Failure(RequestFailed) ==>
      exists url :: HttpGet(url) in SendTo(m, gopro, get).effects && get(url).None?
  {
    BuildUrlWellFormed(m, gopro);
    BuildUrlWellFormed(Message(GetStatus, []), gopro);
    if SendTo(m, gopro, get).result == Failure(RequestFailed) {
      var url := SendTo(m, gopro, get).effects[0].url;
      assert HttpGet(url) in SendTo(m, gopro, get).effects;
    }
  }
}
