# JellyFish lighting plugin for Fauxmo, modelled in Dafny

`JellyFishPlugin` exposes zones of a JellyFish lighting controller as one
emulated on/off smart-home device. For `on()` and `off()` it makes up to three
exchanges with the controller's websocket, one after another:

1. If its zones are unconfigured (`''`), it asks for all zones and caches their
   names. They are joined with `","`.
2. If a pattern is configured, it asks for the `patternFileList`. If the
   pattern is not listed, it clears the pattern for good.
3. It sends the `toCtlrSet` command with state `1` or `0`.

`get_state()` asks for `ledPower` and answers `"on"`, `"off"` or `"unknown"`.

The model has four modules:

- `JsonData` (`json_data.dfy`): the values `json.loads` returns. A parsed object
  keeps its members as received. `Get` and `Keys` give the view of the Python
  dict built from those members: the last duplicate wins and keys keep the
  order of first occurrence. Python truthiness is modelled too.
- `Transport` (`transport.dfy`): the outcome of one exchange. It is `NoReply`
  when connect, send, recv or close raised, `Unparsable` when `json.loads`
  rejects the reply, and `Parsed(value)` otherwise. The controller is the
  class `Controller`: a script of outcomes for the coming exchanges and a log,
  `attempts`, of every frame the plugin tried to send, including frames whose
  connection was refused. A controller with nothing scripted refuses the
  connection.
- `Codec` (`codec.dfy`): the four command texts, `'","'.join` and its inverse
  split, a decoder for the `toCtlrSet` command, and the reading of the zones,
  pattern-list and ledPower replies.
- `Plugin` (`plugin.dfy`): the class `JellyFishPlugin`, with the fields
  `controllerIp`, `pattern` and `zones`. It has one method per source method,
  plus `Switch`, the body that `on()` and `off()` share (they differ only in
  the state digit). `PowerRun` is the reference definition of one
  `on()`/`off()` call. Each method's postcondition ties the new fields, the
  frames attempted and the result to the step functions. `ClientScenario` is
  a usage example: a device driven through `On`, `Off` and `GetState`, with
  what happens derived from the method contracts alone.

The code is modelled as written, including two behaviours that a reader of
its docstrings might not expect:

- `configure_zones` does not swallow its failures. When the exchange fails,
  or the reply has no `zones` dict, the local `zones` is unbound at line 191.
  An exception then escapes the method. It escapes `on()` and `off()` too,
  because they call `configure_zones` outside their `try` (lines 91, 116). The
  model returns `Raised` in that case. The zones stay `''` and nothing else is
  sent.
- The zones are pasted into the command without escaping. So
  `"zoneName":["` + `Front","Back` + `"]` is a JSON list of two names, not
  one joined name (`QuotedJoinIsList`). With no zones at all, the list is
  `[""]`.

A missing `ledPower` gives `"off"`, not `"unknown"`. A reply that is not a
JSON object gives `"unknown"`. The acknowledgement of `toCtlrSet` is never
parsed, so any reply, JSON or not, makes `on()`/`off()` return true.

## Model

| member | source | states |
|---|---|---|
| `JsonData.Truthy` | jellyfishplugin.py:154 | Python truthiness: the falsy values are exactly None, False, 0, 0.0, `""`, `[]` and `{}` (also used at line 221) |
| `JsonData.Keys` | jellyfishplugin.py:187 | `dict.keys()` of a parsed object: each member name exactly once (distinct), and a name is listed iff some received member has it; their order is stated by `KeysInFirstOrder` |
| `JsonData.First` | jellyfishplugin.py:187 | the position of a key's first occurrence: a member with that name sits there and none before it |
| `JsonData.KeysInFirstOrder` | jellyfishplugin.py:187 | `dict.keys()` lists the names in the order of their first occurrence, duplicates or not, so line 192 joins them in that order |
| `JsonData.Get` | jellyfishplugin.py:186 | dict lookup finds a value iff the name is among the keys; the value is that of a member with the name after which no member has that name (the last duplicate wins) |
| `JsonData.DictGet` | jellyfishplugin.py:154 | `.get(k)`: None when no member is named `k`; otherwise the value of a member named `k` after which no member has that name (also used at lines 186, 220 and 221) |
| `JsonData.KeysOfDistinctNames` | jellyfishplugin.py:186-187 | when the received names are all different, `keys()` is exactly the names in received order |
| `JsonData.TruthyObjectIffKeys` | jellyfishplugin.py:154 | a parsed dict is truthy iff it has at least one key |
| `JsonData.MissingNameIsFalsy` | jellyfishplugin.py:154 | `.get` of an absent name gives None, which is falsy |
| `Transport.Controller.Exchange` | jellyfishplugin.py:174-180 | one exchange logs the frame with the controller host and consumes the next scripted outcome; with nothing scripted the outcome is `NoReply` |
| `Codec.Join` | jellyfishplugin.py:80 | `'","'.join(names)` is empty iff there are no names or the only name is empty |
| `Codec.SplitJoin` | jellyfishplugin.py:192 | splitting the joined zones on `","` gives back the zone names, for names without a double quote |
| `Codec.QuotedJoinIsList` | jellyfishplugin.py:94 | the quoted joined zones inside `"zoneName":[...]` equal the comma-separated list of the individually quoted names |
| `Codec.SetPower` | jellyfishplugin.py:94 | the toCtlrSet text of line 94 (state 1) and line 119 (state 0): its length is that of the fixed pieces plus pattern and zones, and the state digit is `1` for on and `0` for off at the place after the pattern |
| `Codec.SetPowerRoundTrip` | jellyfishplugin.py:94 | the toCtlrSet text decodes back to exactly its pattern, its state (1 on, 0 off) and its zones, for a pattern without a double quote |
| `Codec.EntryPath` | jellyfishplugin.py:221 | one entry of the comprehension: a non-dict is broken; a dict is skipped iff its `name` is falsy; a dict with a truthy `name` reads as `Path(folders + "/" + name)` when both are strings, and any path read comes from two such strings |
| `Codec.Collect` | jellyfishplugin.py:221 | collecting the read entries gives a result iff no entry raised, and a path is collected iff some entry reads as that path |
| `Codec.EntryPaths` | jellyfishplugin.py:221 | the list comprehension succeeds iff no entry is broken (not a dict, or named with a non-string `folders` or `name`); a path is in the result iff some entry with a truthy `name` spells it as `folders + "/" + name` |
| `Codec.PatternPaths` | jellyfishplugin.py:220-221 | iterating the `patternFileList` value: an array gives the comprehension over its entries; any other value raises, except an empty string or dict, which gives no path |
| `Codec.Listed` | jellyfishplugin.py:220-223 | only a dict reply whose `patternFileList` is an array lists a pattern, and then some entry spells it |
| `Codec.ListedIff` | jellyfishplugin.py:220-224 | with a `patternFileList` array, a pattern counts as valid iff no entry is broken and some named entry spells it |
| `Codec.ZoneNames` | jellyfishplugin.py:186-187 | names come back iff the reply is a dict whose `zones` is a dict; they are then exactly `Keys` of that dict (first-occurrence order, `KeysInFirstOrder`) and never repeat |
| `Codec.LedPower` | jellyfishplugin.py:153-154 | `.get('ledPower')` succeeds iff the reply is a dict, and the reading is then true iff `ledPower` is truthy; true needs a present `ledPower`; a dict without it reads false |
| `Plugin.ZonesReply` | jellyfishplugin.py:185-187 | the zones exchange yields names iff it got a JSON dict whose `zones` is a dict; the names are then exactly `Keys` of that dict, so in first-occurrence order (`KeysInFirstOrder`), and distinct |
| `Plugin.ValidatedPattern` | jellyfishplugin.py:218-229 | the pattern is kept or cleared, never changed otherwise; a non-empty pattern is kept iff the reply parsed and lists it; whatever is left non-empty is listed |
| `Plugin.NonListClears` | jellyfishplugin.py:219-229 | a `patternFileList` that is not an array (null, a boolean, a number, a string or a dict) clears the pattern |
| `Plugin.MissingListClears` | jellyfishplugin.py:219-229 | a reply without `patternFileList` clears the pattern |
| `Plugin.ValidateIdempotent` | jellyfishplugin.py:203-229 | validating again against the same answer changes nothing, and a cleared pattern stays cleared against any answer |
| `Plugin.PowerState` | jellyfishplugin.py:142-161 | the answer is one of on/off/unknown; "on" iff the reply is a dict with truthy `ledPower`; "unknown" iff the exchange or parse failed or the reply is not a dict |
| `Plugin.MissingLedPowerIsOff` | jellyfishplugin.py:154-157 | a dict reply without `ledPower` gives "off" |
| `Plugin.PowerRun` | jellyfishplugin.py:91-107 | one scripted outcome per frame; a call raises iff the zones are unconfigured and their query fails, and then only that query was attempted and nothing changed; configured zones are kept; the pattern is kept or cleared; otherwise the frames are the zones query (if unconfigured), the pattern query (if a pattern is set), then toCtlrSet with the resulting pattern and zones; resolved zones are the reply's keys joined; the pattern is validated against the right reply; the result is true iff the toCtlrSet exchange got a reply |
| `Plugin.EmptyZoneMapAsksAgain` | jellyfishplugin.py:169-192 | an empty zone map leaves the zones `''`, so the next call queries the zones again |
| `Plugin.SentCommandCarriesState` | jellyfishplugin.py:91-94 | the toCtlrSet frame of a call that returns decodes to the requested state and the pattern and zones left by the two pre-flight steps |
| `Plugin.ScenarioOnWithConfiguredZones` | jellyfishplugin.py:94-103 | zones Front and Back, no pattern, a controller that answers: exactly one frame, toCtlrSet with state 1, file `""` and zones `Front","Back`, and the call returns true |
| `Plugin.ScenarioResolveZones` | jellyfishplugin.py:185-192 | the reply `{"zones":{"All":{},"Porch":{}}}` resolves the zones to All, Porch in that order |
| `Plugin.ScenarioUnknownPattern` | jellyfishplugin.py:218-229 | Holidays/Halloween against a list holding only Holidays/Valentines Day is cleared, and the command then carries the empty pattern |
| `Plugin.ScenarioSendFails` | jellyfishplugin.py:91-107 | when the zones resolve (or are configured) and the toCtlrSet connection is then refused, the call returns false, the zones are the resolved ones and the pattern is the one the validator left |
| `Plugin.JellyFishPlugin.constructor` | jellyfishplugin.py:78-80 | the controller address and pattern are stored unchanged and the zones are stored joined with `","` (no names gives `''`) |
| `Plugin.JellyFishPlugin.ConfigureZones` | jellyfishplugin.py:163-192 | configured zones: no exchange and no change; unconfigured: one zones query (`QueryZones`, line 167), then either the reply's zone names joined with `","`, or an escaping exception with zones still `''`; the pattern is outside its frame |
| `Plugin.JellyFishPlugin.ValidatePattern` | jellyfishplugin.py:194-229 | an empty pattern: no exchange and no change; otherwise one pattern-list query (`QueryPatterns`, line 201) and the pattern kept iff listed, else cleared; the zones are outside its frame |
| `Plugin.JellyFishPlugin.Switch` | jellyfishplugin.py:91-107 | resolver, validator and toCtlrSet in that order, with fields, frames and result as `PowerRun` gives them |
| `Plugin.JellyFishPlugin.On` | jellyfishplugin.py:84-107 | `on()` behaves as `PowerRun` with state 1 |
| `Plugin.JellyFishPlugin.Off` | jellyfishplugin.py:109-132 | `off()` behaves as `PowerRun` with state 0 |
| `Plugin.JellyFishPlugin.GetState` | jellyfishplugin.py:134-161 | one ledPower query (`QueryPower`, line 142); the answer is `PowerState` of its outcome; the zones and pattern are outside its frame |

## Left out

- The websocket transport: `create_connection`, `send`, `recv`, `close`, and the URL `ws://<ip>:9000/ws/`. This is network I/O. Each exchange is one scripted outcome of `Controller`, and the log records the host and the frame text.
- JSON text parsing with `json.loads` is a library call. The model starts from its result (`Parsed`) or its failure (`Unparsable`).
- A `close()` that raises after `recv()` returned is treated as `NoReply`, like any other transport failure. In `configure_zones` and `validate_pattern` the source would still parse the reply it received.
- The kinds of exception (`UnboundLocalError`, `AttributeError`, `TypeError`, websocket errors) are not told apart. They are only caught or escaping, as the source handles them.
- JSON floats are exact reals. `NaN` and `Infinity`, which `json.loads` also accepts, are not modelled.
- All `print` logging has no effect on state or results.
- The `FauxmoPlugin` base class, the device `name` and `port`, plugin loading and the example configuration belong to the host framework.
- The constructor takes the zones as a sequence of names. Python would also accept a bare string and join its characters; that is the same as passing the sequence of one-character names.
- Concurrent calls on one device, and concurrency across devices, are the host's concern. The model is sequential.
