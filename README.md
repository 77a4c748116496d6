# MiLight accessory command selection, modelled in Dafny

This project models the command-selection logic of the homebridge MiLight plugin
(`index.js`). It proves properties of that model.

- **Per-zone command choice.** `setPowerState`, `setBrightness` and `setHue` each
  turn one requested value into a fixed, ordered sequence of bridge commands. The
  sequence depends on the lamp family (`rgbw`, `rgb`, `white`) and the zone.
  Module `Accessory` states each sequence as a function
  (`PowerStateCommands`, `BrightnessCommands`, `HueCommands`).
  Class `MiLightAccessory` has one method per setter. Each method appends the
  commands to an append-only command log, following the source's branches, and is
  proved to append exactly the function's sequence.
- **Command vocabulary and its invariants.** Module `Commands` defines the commands
  (`on`, `off`, `nightMode`, `brightness`, `brightUp`, `brightDown`, `maxBright`,
  `whiteMode`, `hue`, `cooler`, `warmer`) and the 100 ms pause. It also defines two
  invariants that every accessory's log keeps:
  - *protocol-legal*: every command that names a zone names the accessory's own
    zone (`brightness`, `brightUp`, `brightDown`, `hue`, `cooler` and `warmer` name
    none). Every command
    other than `on`/`off`/`nightMode` comes right after `on(zone)`. `nightMode`
    comes right after `off(zone)` and a 100 ms pause.
  - *family-consistent*: every command belongs to the lamp's own family and is one
    of the commands index.js sends to that family. For example, an rgb lamp never gets `nightMode`, and a
    white lamp never gets `hue`.
- **Platform zone selection.** Module `Platform` models `accessories`:
  - it validates the configured `zones` list;
  - it defaults `type` to `rgbw`;
  - it clamps the zone count (1 for rgb, at most 4 otherwise);
  - it creates one accessory per non-empty name, with zone `i + 1`;
  - it invokes the callback only when at least one accessory was created.

  `Plan` and `ConfigAfter` specify the result and the configuration that the
  method leaves behind. The method `MiLightPlatform.Accessories` is proved against
  them. The creation loop (index.js:53-60) is its own method,
  `CreateZoneAccessories`, because one proof over the whole function costs too much.

Modelling choices:
- The callback is modelled as follows. On the accessory, the counter
  `acknowledged` goes up by one per setter call. On the platform, `Accessories`
  returns `Some(list)` when the callback is invoked with `list`, and `None` when it
  is not invoked.
- The colour codec `commands.rgbw.hsvToMilightColor` is recorded symbolically. The
  command `Hue(HsvToMilightColor(h, s, v))` records the triple the codec was
  applied to, so distinct triples are distinct terms.
- Brightness level and hue are JavaScript numbers, modelled as `real`. The setters
  only compare them with constants, so `real` gives the same branches as a double
  for every finite value. There is no precondition on the level or the hue. A non-zero level of at
  most 2, negative and fractional levels included, means night mode for rgbw and
  white lamps (the test at index.js:108 is `level <= 2`). A hue of 179.5 on a white
  lamp means `warmer`, and a hue of 0.5 on an rgbw lamp means `hue`, not white mode.
- What index.js does, as modelled:
  - the night-mode threshold is 2;
  - an rgb or white lamp gets at most one step command per brightness request:
    exactly one (at or above 50: `brightUp`; below 50: `brightDown`) outside
    level 0 (only `off`), white night mode and white at 100 (`maxBright`);
  - every command that needs addressing comes right after `on(zone)` in the same
    request, and `on` is never suppressed. Switching off, brightness 0 and night
    mode send no `on` (index.js:98, 107, 112-115);
  - an rgb lamp gets the `rgbw` colour code.
- The comment at index.js:128 says "when value is >50", but the code tests
  `level >= 50`. The model follows the code.

## Model

| member | source | states |
|---|---|---|
| Commands.LegalAppend | index.js:92-168 | appending one setter's legal command sequence to a legal log leaves the log legal, so the per-call addressing and pause rules hold for the whole log |
| Commands.ConsistentAppend | index.js:92-168 | appending commands of the lamp's own family to a log of that family keeps every command in the log a command that family offers |
| Accessory.PowerStateCommands | index.js:92-101 | setPowerState sends exactly one command, of the lamp's family, legal for the zone |
| Accessory.BrightnessCommands | index.js:103-142 | setBrightness sends one to three commands. The first is `on(zone)` or `off(zone)`. Every command that needs addressing follows `on(zone)`, and night mode follows `off(zone)` and a 100 ms pause. Only commands of the lamp's own family are used |
| Accessory.HueCommands | index.js:144-169 | setHue sends exactly two commands, starting with `on(zone)`. The sequence is legal for the zone and uses only the lamp's family. Any colour code sent is the codec applied to `(value, 0, 0)`, so saturation and value are never passed to the codec |
| Accessory.PowerStateChoice | index.js:92-101 | the single command is `on(zone)` if and only if power is requested on, and `off(zone)` if and only if it is requested off |
| Accessory.BrightnessZeroIsOff | index.js:104-107 | the sequence is exactly `[off(zone)]` if and only if the level is 0, for every family |
| Accessory.BrightnessNightMode | index.js:108-116 | night mode appears if and only if the level is non-zero and at most 2 and the lamp is not rgb. In that case the whole sequence is `[off(zone), pause(100), nightMode(zone)]` |
| Accessory.BrightnessAddressed | index.js:117-125 | outside the off and night-mode cases, exactly two commands are sent, `on(zone)` then one more. For rgbw the second is `brightness(level)` |
| Accessory.BrightnessSteps | index.js:126-138 | for rgb and white lamps outside night mode, the second command is `maxBright(zone)` for white at 100. Otherwise it is `brightUp` at or above 50 and `brightDown` below 50 |
| Accessory.HueRgbw | index.js:152-157 | for rgbw, the second command is `whiteMode(zone)` if and only if the hue is 0. Otherwise it is `hue` of the colour code of `(value, 0, 0)` |
| Accessory.HueRgb | index.js:158-159 | for rgb, the second command is always the rgb `hue` of the rgbw colour code of `(value, 0, 0)`, hue 0 included |
| Accessory.HueWhite | index.js:160-166 | for white, the second command is `cooler` if and only if the hue is at least 180, and `warmer` if and only if it is below 180 |
| Accessory.MiLightAccessory.constructor | index.js:70-89 | a new accessory copies name, zone and type, and starts with an empty command log and no callbacks |
| Accessory.MiLightAccessory.SetPowerState | index.js:92-101 | appends exactly `PowerStateCommands` to the log, keeps the log legal and family-consistent, and invokes the callback once |
| Accessory.MiLightAccessory.SetBrightness | index.js:103-142 | appends exactly `BrightnessCommands` to the log, keeps the log legal and family-consistent, and invokes the callback once |
| Accessory.MiLightAccessory.SetHue | index.js:144-169 | appends exactly `HueCommands` to the log, keeps the log legal and family-consistent, and invokes the callback once |
| Platform.TypeOrDefault | index.js:36-39 | a configured family is kept, and a missing or empty `type` means rgbw |
| Platform.MaxZones | index.js:44-50 | a bridge has 1 zone for rgb and 4 for rgbw and white |
| Platform.ZoneLimit | index.js:41-50 | the number of entries examined is the configured count capped at 1 for rgb and at 4 for the other families |
| Platform.Selected | index.js:53-60 | the creation loop over the first `n` entries makes at most `n` accessories |
| Platform.SelectedShape | index.js:53-60 | the created accessories number at most the examined entries. Their zones are strictly increasing and lie in `1..n`. Each is of the configured family and is named after the non-empty entry `zones[zone-1]` |
| Platform.SelectedComplete | index.js:53-60 | every non-empty entry `i` among those examined gets an accessory with zone `i + 1` and that name |
| Platform.SelectedEmptyIff | index.js:53-60 | no accessory is created if and only if every examined entry is empty |
| Platform.Stamped | index.js:38-56 | after the creation loop the configuration's zone list is unchanged and its type is set. `name` and `zone` are those of the last accessory created, and unchanged when none was |
| Platform.Plan | index.js:29-66 | no callback without `zones`, and a delivered list is never empty |
| Platform.PlanInvokesIff | index.js:29-66 | the callback is invoked if and only if `zones` is present and some examined entry is non-empty. So it is never invoked for a missing or empty list |
| Platform.PlanBounds | index.js:36-60 | a delivered list has 1 to `MaxZones` accessories of the configured type (rgbw by default), with strictly increasing zones in `1..MaxZones`, each named after its entry |
| Platform.PlanComplete | index.js:53-60 | a delivered list contains an accessory with zone `i + 1` for every non-empty examined entry `i` |
| Platform.ConfigAfter | index.js:29-60 | without `zones` the configuration is untouched. Otherwise `type` is written back, defaulting to rgbw, and the zone list is kept. `name` and `zone` are those of the last accessory in the delivered list, and unchanged when nothing is delivered |
| Platform.MiLightPlatform.constructor | index.js:18-22 | the platform keeps the configuration it is given |
| Platform.MiLightPlatform.CreateZoneAccessories | index.js:53-60 | creates fresh accessories, with empty logs, exactly for the selected entries, in order. It leaves the name and zone of the last one created in the configuration |
| Platform.MiLightPlatform.Accessories | index.js:25-67 | leaves the configuration as `ConfigAfter` says. Invokes the callback exactly when `Plan` is `Some`. The list passed to the callback consists of fresh accessories, with empty logs, whose settings are exactly `Plan`'s |

## Left out

- The `node-milight-promise` controller, which `index.js` leaves to the library (index.js:6-7, 74-87): framing on the wire, IP address and port, delay between commands and command repeats. The model reduces it to appending to a command log, and `pause(100)` is a log entry.
- `commands.rgbw.hsvToMilightColor`, a colour codec in the command library: recorded symbolically, so distinct triples are distinct terms. The real codec maps many triples onto one code.
- Accessories share one bridge: all of them get the same `ip_address` and `port` (index.js:74-75), and each builds its own controller (index.js:82-87). Commands of different zones can therefore interleave at the bridge. `ProtocolLegal` holds for each accessory's own log, not for the stream the bridge receives.
- Infinite and NaN levels and hues: `real` has neither.
- Homebridge registration, `getServices`, `identify` and all logging (index.js:10-16, 171-199): framework scaffolding with no decision logic.
- Lamp types other than `rgbw`, `rgb` and `white`: the source would fail on `commands[this.type]` for them. The configuration's type is an enumeration, with `None` for a missing or empty value.
- Zone entries that are not strings (numbers, `null`, objects): entries are modelled as strings, and JavaScript truthiness of an entry as non-emptiness.
- A `zones` value that is truthy but not an array, such as the string `"Kitchen"`: index.js:29-30 accepts it and takes its `length`, and the loop at index.js:53-60 then indexes its characters. `zones` is modelled as a list of strings, so this input cannot be expressed.
- The `log` object passed to accessories and the `lamp` global that the loop at index.js:57 leaks: neither affects which commands are chosen.
