# gopro-control: the command layer, in Dafny

gopro-control is a command-line remote for a GoPro camera. It reads text
commands such as `video_resolution 4k` or `zoom 50` from standard input.
It turns each one into a GET request against the camera's HTTP control
interface (`http://<ip>/gp/gpControl/...`). At start-up it also wakes the
camera with a Wake-on-LAN packet. The repository holds two versions of the
tool:

- `gpc.py`, the current tool, with fifteen commands;
- `GoPro.py`, an older variant with a smaller catalog, a different base URL
  and an object-style message constructor.

This project models the command-translation layer of both versions:

- **Catalog.** The table from command name to arity, URL template and
  optional value mapping. It is a datatype of command tags with total
  functions, in `GpcCatalog` and `GoProCatalog`.
- **Parser.** Given the first token, it scans the catalog for the command,
  checks the argument count, copies the argument slice and maps each
  argument in place.
  - gpc.py's `Message.from_text` is the method `GpcMessage.FromText`.
  - GoPro.py's `Message.__init__` is the class `GoProMessage.Message`, whose
    methods set `command` and `args`.
  - Both are proved equal to, or to leave their object in, the result of
    the function `Parse`.
- **URL rendering.** `_build_url` in both versions, together with the
  subset of Python's `str.format` the templates use (`PyStr.Format`).
- **Dispatch policy.** The branches of gpc.py's `send_to`: `wake`,
  `get_battery_level`, `stream`, and everything else. The camera's HTTP
  reply is a parameter `get`, which either answers or fails as
  `requests.get` does when it raises. The effects (UDP packet sent, GET issued) are
  recorded as a list.
- **Wake-on-LAN payload.** `bytes.fromhex('FFFFFFFFFFFF' + mac * 16)`,
  including Python's hex decoder (`PyBytes.FromHex`).
- **Input loop.** The tokenising step `line.strip().split(' ')`
  (`CommandLine`), and which rejections the `except ValueError` around the
  parse actually catches (`GpcMain`, `GoProMessage.HandleLine`).
- **Comparison.** `Variants` relates the two versions.
  - Shared commands parse alike and render the same URL.
  - `wake` is a command in one version only.
  - `bitrate` is `stream_bitrate` under another name.

Python semantics are written out where the code depends on them:

- `str.strip` removes exactly the characters `str.isspace` accepts.
- `str.split(' ')` keeps empty fields and never returns an empty list.
- `bytes.fromhex` skips ASCII whitespace between byte pairs.
- A Python `dict` keeps insertion order.
- The scan loop keeps the last match. Because names are unique, that is
  also the first.

Exceptions are modelled by the kind the code actually raises:

- an unknown command raises `ValueError`;
- in gpc.py, an arity or mapping rejection builds its message from `self`
  inside a `classmethod`, so it raises `NameError`;
- in GoPro.py, the same rejections go through `get_identifier`, which reads
  a missing attribute, so they raise `AttributeError`.

Only `ValueError` is caught by the input loops. That is recorded under
"Findings".

Every rejection in the parsers is written `raise ValueError(...)`, and both
input loops wrap the parse in `except ValueError` (gpc.py:146,
GoPro.py:118), so a rejected line was meant to be reported and skipped.
The code does not behave that way. The model follows the code
(`HandleLine`) and states the intended behaviour separately
(`HandleLineIntended`).

## Model

| member | source | states |
|---|---|---|
| PyStr.Strip | gpc.py:143 | the stripped text starts and ends with a non-whitespace character, or is empty |
| PyStr.StripPadded | gpc.py:143 | stripping `front + body + back` with whitespace-only `front`/`back` and a body with non-space ends gives exactly `body` |
| PyStr.StripBlank | gpc.py:143 | a whitespace-only line strips to the empty string |
| PyStr.StripIdempotent | gpc.py:143 | stripping twice is stripping once |
| PyStr.Split | gpc.py:145 | `split(' ')` gives at least one field, and no field contains a space |
| PyStr.JoinSplit | gpc.py:145 | joining the fields of `split(' ')` with single spaces gives back the text |
| PyStr.SplitJoin | gpc.py:145 | splitting the space-join of space-free fields gives back those fields, empty ones included |
| PyStr.Format | gpc.py:112 | formatting succeeds only on a well-formed template given at least as many arguments as it has `{}` fields |
| PyStr.FormatDefined | gpc.py:112 | a well-formed template formats exactly when there are at least as many arguments as `{}` fields |
| PyStr.FormatBraceFree | gpc.py:112 | a template without braces formats to itself, whatever the arguments |
| PyStr.FormatPrefix | gpc.py:112 | a brace-free prefix of the template passes through formatting unchanged |
| PyStr.FormatOneField | gpc.py:112 | a template with one `{}` between brace-free text formats to that text with the first argument in place of the field |
| PyBytes.Repeat | gpc.py:167 | `s * n` has `n` times the length of `s` |
| PyBytes.FromHexHex | gpc.py:168 | decoding the hex text of any byte string gives back the bytes |
| PyBytes.FromHexAppend | gpc.py:168 | decoding a concatenation of two decodable texts gives the concatenation of their bytes |
| PyBytes.FromHexRepeat | gpc.py:167-168 | decoding `s * n` gives the bytes of `s`, `n` times |
| PyBytes.FromHexLength | gpc.py:168 | without whitespace a decodable text has exactly two digits per byte, so a text of odd length is rejected; this applies to the whole decoded text, not to the MAC address (see `WakeOnLan.WakePayloadOddMac`) |
| PyBytes.FromHexHead | gpc.py:168 | a decodable text that starts with a non-space starts with two hex digits, which give its first byte, and the rest decodes too |
| PyBytes.FromHexRejects | gpc.py:168 | a character that is neither a hex digit nor whitespace makes decoding fail, wherever it stands |
| Tables.LastIndex | gpc.py:75-77 | the scan's result is the last position holding the name, or none when no position holds it |
| Tables.LastIsFirst | gpc.py:30-31 | in a list of distinct names the last match is the only match |
| Tables.MapArgs | gpc.py:86-91 | a successful mapping keeps the number of arguments; a failure names an argument that is in the list and not a key of the mapping |
| Tables.MapArgsSuccess | gpc.py:86-91 | mapping succeeds exactly when every argument is a key, and then gives each argument's code in order |
| Tables.MapArgsFirstUnknown | gpc.py:88-90 | mapping fails with the first argument that is not a key, whatever follows it |
| GpcCatalog.Name | gpc.py:31-46 | every command value, the name a user types, is non-empty |
| GpcCatalog.Names | gpc.py:49-65 | the names in the order the definitions list the commands, one per definition |
| GpcCatalog.Arity | gpc.py:49-65 | every command takes at most one argument |
| GpcCatalog.Template | gpc.py:49-65 | every template is empty or starts with `/`, so it follows the base URL path directly |
| GpcCatalog.Mapping | gpc.py:49-65 | only a command that takes one argument has a value mapping |
| GpcCatalog.NameInjective | gpc.py:30-46 | distinct commands have distinct names |
| GpcCatalog.DefinitionsComplete | gpc.py:49-65 | every command of the enum has a definition, exactly once |
| GpcCatalog.NamesUnique | gpc.py:30-46 | the names in definition order are pairwise distinct |
| GpcCatalog.Lookup | gpc.py:74-79 | a found command has the name looked up |
| GpcCatalog.LookupName | gpc.py:74-77 | looking up a command's own name finds that command |
| GpcCatalog.LookupUnknown | gpc.py:74-79 | a name no command has (matched exactly, case included) finds nothing |
| GpcCatalog.FieldTemplateShape | gpc.py:50-64 | each arity-1 template is brace-free text, one `{}`, then nothing |
| GpcCatalog.PlainTemplateShape | gpc.py:51-63 | each arity-0 template is brace-free |
| GpcCatalog.TemplateFields | gpc.py:49-65 | every template is well formed and has exactly `arity` placeholders |
| GpcCatalog.FormatOneArgument | gpc.py:50-64 | an arity-1 template with one argument renders as its fixed prefix followed by the argument |
| GpcCatalog.FormatNoArgument | gpc.py:51-63 | an arity-0 template renders to itself |
| GpcCatalog.MappingCodes | gpc.py:50-62 | only `default_boot_mode`, `stream_resolution` and `video_resolution` have a mapping, and each maps to decimal codes |
| GpcMessage.Raised | gpc.py:78-90 | an unknown command raises `ValueError`; every other rejection raises `NameError`, never `ValueError` |
| GpcMessage.Parse | gpc.py:72-92 | a successful parse has the named command and exactly `arity` arguments, each a mapped code when the command has a mapping |
| GpcMessage.ScanDefinitions | gpc.py:74-77 | the scan loop finds the command of the given name, or none |
| GpcMessage.MapInPlace | gpc.py:86-91 | the in-place mapping loop gives the mapped arguments, or the first unknown argument |
| GpcMessage.FromText | gpc.py:72-92 | `from_text` on a non-empty token list gives exactly the result of `Parse` |
| GpcMessage.ParseUnknownCommand | gpc.py:78-79 | parsing fails with "does not exist" exactly when no command has the first token as its name |
| GpcMessage.ParseKnownCommand | gpc.py:81-92 | for a known command, parsing succeeds exactly when the count is right and every argument maps; then the arguments are the mapped (or unchanged) tokens after the name |
| GpcMessage.ParseArityMismatch | gpc.py:82-84 | a wrong argument count is rejected with the expected and actual counts |
| GpcMessage.ParseUnknownArgument | gpc.py:86-90 | the first argument outside the mapping is the one reported |
| GpcMessage.ParseVideoResolution | gpc.py:62 | `video_resolution 4k` parses to the argument `['1']` |
| GpcMessage.ParseZoom | gpc.py:64 | `zoom 50` keeps its argument unchanged |
| GpcMessage.ParseZoomMissing | gpc.py:83-84 | `zoom` alone is an arity mismatch (1 expected, 0 given) |
| GpcMessage.ParseVideoResolutionUnknown | gpc.py:89-90 | `video_resolution 8k` is rejected on the argument `8k` |
| GpcMessage.ParseEmptyToken | gpc.py:76-79 | the empty token names no command |
| GpcMessage.BuildUrl | gpc.py:111-112 | the URL renders exactly when the message has at least as many arguments as its command takes |
| GpcMessage.BuildUrlWellFormed | gpc.py:111-112 | a message with `arity` arguments always renders, to the base URL followed by the filled template |
| GpcMessage.BuildUrlInjective | gpc.py:111-112 | two parsed messages of one command that render the same URL are the same message |
| GpcMessage.BuildUrlSettingExamples | gpc.py:60-62 | `video_resolution 4k` ends in `/setting/2/1` and `stream_bitrate 2500000` in `/setting/62/2500000` |
| GpcMessage.BuildUrlQueryExamples | gpc.py:53-55 | `get_info` is the bare base URL; `get_battery_level` and `get_status` share a URL |
| GpcDispatch.SendWakeOnLan | gpc.py:165-171 | the wake-up succeeds exactly when a packet is sent, and every packet sent goes to port 9 |
| GpcDispatch.SendRequest | gpc.py:101-103 | a GET is issued unless the URL does not render, and the only GET issued is of the message's own URL |
| GpcDispatch.BatteryField | gpc.py:100 | the battery reply exists exactly when the camera answered with a `status` object holding field `2`, and is that field |
| GpcDispatch.SendTo | gpc.py:94-109 | one command has at most one effect: a single packet or a single GET |
| GpcDispatch.SendToWake | gpc.py:95-98 | `wake` makes no HTTP request: it sends the magic packet to port 9 and replies `''`, or sends nothing when the MAC address does not decode |
| GpcDispatch.SendToBattery | gpc.py:99-100 | `get_battery_level` makes exactly the `/status` request; it fails when the GET fails, and otherwise replies the status field `2` or fails when that field is missing |
| GpcDispatch.SendToStream | gpc.py:103-108 | `stream` makes one GET; it fails when the GET fails, and otherwise replies `'1'` exactly when the status code is 200 and `'0'` otherwise |
| GpcDispatch.SendToOther | gpc.py:101-109 | every other well-formed message makes one GET of its own URL and returns the reply unchanged, or fails when the GET fails |
| GpcDispatch.SendToFaults | gpc.py:94-109 | a well-formed message never fails on its URL; it fails only for `wake`, for `get_battery_level`, or because a GET it issued got no reply |
| WakeOnLan.WakePayload | gpc.py:165-168 | whenever the sixteen copies of the MAC address decode, the packet is six `0xFF` bytes followed by their bytes |
| WakeOnLan.SyncBytes | gpc.py:167 | `FFFFFFFFFFFF` decodes to six `0xFF` bytes |
| WakeOnLan.WakePayloadLayout | gpc.py:165-168 | the payload is six `0xFF` bytes then the MAC address's bytes sixteen times, so its length is 6 plus 16 times the length of the address's bytes; GoPro.py:132-135 builds it with the same expression |
| WakeOnLan.WakePayloadStandard | gpc.py:167-168 | twelve hex digits give the 102-byte packet |
| WakeOnLan.FromHexDigits | gpc.py:168 | an even number of hex digits always decodes, to half as many bytes |
| WakeOnLan.WakePayloadRejects | gpc.py:167-168 | a MAC address with a separator such as `:` gives no payload |
| WakeOnLan.RepeatMembers | gpc.py:167 | every character of the repeated text is a character of the MAC address |
| WakeOnLan.WakePayloadDigits | gpc.py:167-168 | a MAC address made only of hex digits always gives a packet, of 6 + 8·\|mac\| bytes, whatever its length |
| WakeOnLan.WakePayloadOddMac | gpc.py:167-168 | a MAC address of an odd number of hex digits does not decode on its own, yet still gives a packet |
| WakeOnLan.WakePayloadMissingDigit | gpc.py:167-168 | the eleven-digit address `AABBCCDDEEF` gives a 94-byte packet instead of an error |
| CommandLine.Tokenise | gpc.py:143-145 | tokenising never gives an empty list |
| CommandLine.TokeniseWords | GoPro.py:115-117 | a line of single-spaced words, with any whitespace around it, tokenises to those words |
| CommandLine.TokeniseJoin | gpc.py:143-145 | the tokens joined with single spaces are the stripped line |
| CommandLine.TokeniseBlank | gpc.py:143-145 | a blank line becomes `['']`, so the parser is never given an empty list |
| GpcMain.HandleLine | gpc.py:142-148 | as written, only an unknown command is skipped, and whatever ends the program is `NameError` |
| GpcMain.HandleLineCrashes | gpc.py:144-148 | as written, a line ends the program exactly when it names a known command but is rejected, and what escapes is `NameError` |
| GpcMain.HandleLineZoom | gpc.py:84 | the line `zoom` ends the program as written, and is skipped as an arity mismatch as intended |
| GpcMain.HandleLineIntendedTotal | gpc.py:144-148 | the intended loop body never crashes, accepts exactly the lines that parse, and skips the rest with their reason |
| GpcMain.HandleLineBlank | gpc.py:142-148 | a blank line is skipped as the unknown command `""` |
| GoProCatalog.Name | GoPro.py:32-43 | every command value is non-empty |
| GoProCatalog.Names | GoPro.py:45-56 | the names in the order the definitions list the commands, one per definition |
| GoProCatalog.Arity | GoPro.py:45-56 | every defined command takes at most one argument |
| GoProCatalog.Template | GoPro.py:45-56 | every defined template is non-empty and has no leading `/`, because the base URL ends in `/` |
| GoProCatalog.Mapping | GoPro.py:45-56 | only a command that takes one argument has a value mapping |
| GoProCatalog.NameInjective | GoPro.py:31-43 | distinct commands have distinct names |
| GoProCatalog.DefinitionsExact | GoPro.py:45-56 | the definitions hold each command except `wake`, exactly once |
| GoProCatalog.NamesUnique | GoPro.py:31-43 | the names in definition order are pairwise distinct |
| GoProCatalog.Lookup | GoPro.py:63-65 | a found command has the name looked up and has a definition |
| GoProCatalog.LookupName | GoPro.py:33-56 | looking up a command's own name finds it when it has a definition and nothing otherwise |
| GoProCatalog.LookupUnknown | GoPro.py:63-67 | a name no command has finds nothing |
| GoProCatalog.FieldTemplateShape | GoPro.py:47-50 | each arity-1 template is brace-free text, one `{}`, then nothing |
| GoProCatalog.PlainTemplateShape | GoPro.py:46-55 | each arity-0 template is brace-free |
| GoProCatalog.TemplateFields | GoPro.py:45-56 | every defined template is well formed and has exactly `arity` placeholders |
| GoProCatalog.FormatOneArgument | GoPro.py:47-50 | an arity-1 template with one argument renders as its fixed prefix followed by the argument |
| GoProCatalog.FormatNoArgument | GoPro.py:46-55 | an arity-0 template renders to itself |
| GoProCatalog.MappingCommands | GoPro.py:47-50 | only `video_resolution` and `default_boot_mode` have a mapping |
| GoProMessage.Url | GoPro.py:26 | the base URL is non-empty and ends in `/` |
| GoProMessage.Raised | GoPro.py:66-82 | an unknown command raises `ValueError`; every other rejection raises `AttributeError`, never `ValueError` |
| GoProMessage.Parse | GoPro.py:61-79 | a successful parse has the named, defined command and exactly `arity` arguments, each a mapped code when the command has a mapping |
| GoProMessage.RenderUrl | GoPro.py:88-89 | rendering succeeds exactly when there are at least `arity` arguments |
| GoProMessage.Message.ScanDefinitions | GoPro.py:62-65 | the scan loop sets `command` to the defined command of the given name, or none, and leaves `args` alone |
| GoProMessage.Message.MapInPlace | GoPro.py:74-79 | the loop overwrites `args` in place with the mapped codes, or stops at the first unknown argument with the arguments before it mapped |
| GoProMessage.Message.Init | GoPro.py:61-79 | `__init__` leaves the object holding exactly the parsed command and arguments, or reports the rejection `Parse` gives |
| GoProMessage.Message.New | GoPro.py:61-79 | constructing a message gives a fresh object in the state `Parse` describes, or the rejection |
| GoProMessage.Message.BuildUrl | GoPro.py:88-89 | a message's URL renders exactly when it holds at least `arity` arguments |
| GoProMessage.ParseKnownCommand | GoPro.py:69-79 | for a defined command, parsing succeeds exactly when the count is right and every argument maps, with the mapped (or unchanged) tokens as arguments |
| GoProMessage.ParseUnknownCommand | GoPro.py:63-67 | parsing fails with "does not exist", a `ValueError`, exactly when no defined command has the first token as its name |
| GoProMessage.ParseWake | GoPro.py:33 | `wake` is in the enum but not in the definitions, so it is rejected as a command that does not exist |
| GoProMessage.ParseRejections | GoPro.py:69-82 | arity and mapping rejections are reported with the counts or the unknown argument, and raise `AttributeError` |
| GoProMessage.ParseZoomMissing | GoPro.py:69-72 | `zoom` alone is an arity mismatch (1 expected, 0 given) |
| GoProMessage.RenderUrlLayout | GoPro.py:26 | the URL is `'http://' + ip + '/gp/gpControl/'` followed by the filled template |
| GoProMessage.BatteryLifeIsDisplayOff | GoPro.py:54-55 | `get_battery_life` renders exactly the URL of `display_off`, `setting/58/0` |
| GoProMessage.HandleLine | GoPro.py:114-120 | as written, only an unknown command is skipped, and whatever ends the program is `AttributeError` |
| GoProMessage.HandleLineCrashes | GoPro.py:114-120 | as written, a line ends the program exactly when it names a defined command but is rejected, and what escapes is `AttributeError` |
| GoProMessage.HandleLineZoom | GoPro.py:72 | the line `zoom` ends the program as written, and is skipped as an arity mismatch as intended |
| GoProMessage.HandleLineIntendedTotal | GoPro.py:114-120 | the intended loop body never crashes and accepts exactly the lines that parse |
| Variants.CounterpartByName | GoPro.py:32-43 | every older command has a gpc.py namesake, except `get_battery_life` and `bitrate` |
| Variants.SharedEntry | GoPro.py:46-54 | a shared command has the same arity and mapping in both versions, and the older template is the newer one without its leading `/` |
| Variants.SlashedTemplateSameUrl | GoPro.py:89 | a template with a leading `/` after the base renders the same as the template without it after a base ending in `/` |
| Variants.SameUrl | GoPro.py:88-89 | a shared command with the same arguments renders the same URL in both versions |
| Variants.SameParse | GoPro.py:61-79 | a line naming a shared command parses the same way in both versions: the same arguments, or the same rejection |
| Variants.WakeOnlyInGpc | GoPro.py:33 | `wake` parses in gpc.py and is an unknown command in GoPro.py |
| Variants.BitrateRenamed | GoPro.py:50 | `bitrate` is `stream_bitrate` under another name and renders the same URL |

## Left out

- HTTP requests (`requests.get`) and JSON decoding are not modelled. The camera is the parameter `get`. For each URL it returns either a reply or a failure (`RequestFailed`), which stands for any `requests.RequestException`; the kinds of exception are not told apart. A reply holds a status code and an optional `status` object of integer fields. Other JSON values, and the `json()` exception itself, are not modelled.
- UDP sockets, the broadcast option and `sendto` for the wake-up and keepalive packets are not modelled. The wake-up appears only as a recorded effect carrying its payload.
- The keepalive thread is not modelled. It is an endless loop with a floating-point sleep.
- Configuration loading, the debug flag and `debug_print`, SIGINT handling, and the `mpv` launch after `stream` are not modelled. The model starts from an already-built camera record.
- The stdin loop itself and the printing of replies are not modelled. One iteration, up to the parsed message, is modelled as `HandleLine`.
- GoPro.py's `Message.send_to` is not modelled separately. It is a GET of the `_build_url` URL with the reply discarded; the URL is `Message.BuildUrl`.
- `__repr__` and the text of the exception messages are not modelled. Only the exception kind and the rejection's data are kept.
- `PyStr.Format` covers only the `str.format` syntax the templates use: `{}`, `{{` and `}}`. Any other brace is treated as a formatting error.
- `GpcMessage.FromText`: requires a non-empty token list. `from_text([])` raises `IndexError` in the source; `CommandLine.TokeniseBlank` shows the loop never passes one.
- Aliasing of argument lists is not modelled. gpc.py's default argument `args=[]` is shared between calls, but no modelled path mutates it. The token list `from_text` copies its slice from is a value here.

## Findings

| source | as written | input that shows it | evidently intended | confidence | as-written member | corrected member |
|---|---|---|---|---|---|---|
| gpc.py:84 | the arity and mapping errors of the `classmethod` `from_text` format `self.command`, so `NameError` is raised instead of the `ValueError` the loop catches at gpc.py:146, and the program stops | the line `zoom` | the line is reported and skipped like an unknown command | high (not executed) | GpcMain.HandleLineZoom | GpcMain.HandleLineIntendedTotal |
| GoPro.py:72 | the arity and mapping errors call `get_identifier`, which reads the missing `self.kind` (GoPro.py:81-82), so `AttributeError` is raised instead of the `ValueError` the loop catches at GoPro.py:118, and the program stops | the line `zoom` | the line is reported and skipped like an unknown command | high (not executed) | GoProMessage.HandleLineZoom | GoProMessage.HandleLineIntendedTotal |
