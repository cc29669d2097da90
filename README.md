# UniFi webhook to Discord transforms, modelled in Dafny

The repository holds two workflow-node scripts. Each turns one webhook payload into a list of
result records for a Discord webhook:

- `unifi-network-to-discord.js` handles UniFi Network alerts. It always produces exactly one
  record: an embed with routing metadata, or an error record when the payload is not from the
  `network` app.
- `unifi-to-discord.js` handles UniFi Protect alarms. It parses a level out of the alarm name and
  produces one embed record per trigger, or a single error record when the payload has no alarm.

The model keeps the scripts' own structure:

- **Lookups and parsing** are pure functions. These are the category cascade, the severity table,
  `parseAlertName`, the alert-level table, device resolution and `convertTimestamp`.
- **The two main bodies** are methods. The Network body builds its field list by successive
  pushes, one helper call per `fields.push`. The Protect body is a `while` loop over the triggers,
  appending one record per trigger.
- **Each method** is proved equal to a specification function (`NetworkAlertRecord`,
  `NetworkFields`, `TriggerRecord`). The promised properties are proved about those functions as
  lemmas.

Files:

- `wrappers.dfy`: `Option`.
- `js_text.dfy`: JavaScript string semantics the scripts rely on:
  - the white-space and line-terminator sets of `\s`, `.` and `trim`;
  - `trim` itself;
  - `s || d` on strings;
  - ASCII upper-casing and first-letter capitalisation.
- `timestamp.dfy`: `convertTimestamp`, which is the same in both scripts.
- `discord.dfy`: the embed records.
- `unifi_network.dfy` (module `UnifiNetwork`) and `unifi_protect.dfy` (module `UnifiProtect`):
  the two transforms.

Modelling conventions:

- Every optional string of a payload is a `string`, and `""` stands for absent. In the scripts,
  absent and empty are the same falsy value for `||` and `if`. The one exception is the Network
  `alarm_id`, an `Option<string>`, because it is passed through as given, with no `||`.
- The Network severity is an `Option<int>`, and `Some(0)` is falsy as well.
- The following are parameters: the webhook URL, the device mapping, the current time (as text),
  the readable-date formatter (`format`, `None` where the host library throws) and `toISOString`
  (`iso`).

`parseAlertName` applies the regular expression `/^(SECURITY|WARNING|ALERT|INFO):\s*(.+)$/i`. It
is modelled as a hand-written backtracking matcher:

1. The keyword is tried in the order of the alternation, ignoring ASCII case, and must be
   followed by `:`.
2. The greedy `\s*` takes the whole run of white space.
3. `(.+)$` then needs at least one more character and no line terminator up to the end. When it
   cannot match, `\s*` gives back one character at a time.

`MatchAlertNameSpec` proves that this matcher finds exactly the matches of the pattern. It states
the pattern declaratively as `PatternMatchesAt`, and shows that the matcher returns the match
with the longest white-space run, which is the one a backtracking engine reports. The
consequences, each proved as a lemma:

- A keyword in any case followed by a colon and only white space still matches, as long as the
  last character is not a line terminator (`SpacesOnlyRestMatches`). For example, `"INFO:   "`
  and `"info:   "` both give the full name `"INFO: "`.
- A bare `"INFO:"` or `"info:"` does not match (`BareKeywordUnchanged`).
- `"Security Alert"`, the default name, does not match (`ParseDefaultAlarmName`).

Three details of the code that are easy to misread, as modelled:

- The rest of a matched alarm name is trimmed before it goes into `LEVEL: rest`.
- An unmatched name gets level `INFO`.
- In the code the `"Invalid timestamp"` text comes from the `catch` around `toLocaleString`. It
  therefore appears only when the host library throws. An unparseable date makes
  `toLocaleString` return text (`Invalid Date`) instead of throwing, and in the model that text is
  just the formatter's result.

## Model

| member | source | states |
|---|---|---|
| Wrappers.Option.GetOr | unifi-to-discord.js:64 | `x || default` on an optional value: the value when present, the default otherwise |
| JsText.OrElse | unifi-to-discord.js:63 | `s || d` on strings: `s` unless it is empty, then `d` |
| JsText.IsLineTerminator | unifi-to-discord.js:25 | the ECMAScript line terminators (LF, CR, U+2028, U+2029): the characters the regular-expression `.` does not match |
| JsText.IsWhiteSpace | unifi-to-discord.js:25 | the ECMAScript white-space characters (TAB, VT, FF, SPACE, NBSP, ZWNBSP and the space separators) |
| JsText.IsSpace | unifi-to-discord.js:25 | what `\s` matches and `trim` removes: white space or a line terminator |
| JsText.TrimStart | unifi-network-to-discord.js:186 | the result is a suffix of the input; what was removed is all white space or line terminators; the result does not start with one |
| JsText.SpaceBeforeSuffix | unifi-network-to-discord.js:186 | a leading white-space character joins the white space cut off before the rest's trimmed suffix |
| JsText.TrimEnd | unifi-network-to-discord.js:186 | the result is a prefix of the input; what was removed is all white space or line terminators; the result does not end with one |
| JsText.Trim | unifi-to-discord.js:29 | `trim`: the result is a slice of the input with only white space cut from each side; it is empty or neither starts nor ends with white space |
| JsText.TrimPieces | unifi-to-discord.js:29 | cutting white space off the front and then the back leaves a slice of the input with only white space on either side |
| JsText.TrimEndSpaceTail | unifi-network-to-discord.js:186 | appending white space does not change what `trimEnd` gives |
| JsText.TrimEndKeepsPrefix | unifi-network-to-discord.js:186 | `trimEnd` of `p + v`, where `v` is not all white space, keeps `p` and trims only `v` |
| JsText.EqualIgnoringCase | unifi-to-discord.js:25 | the `i` flag's comparison of a keyword: the same length, and each pair of characters equal after ASCII upper-casing |
| JsText.UpperChar | unifi-to-discord.js:28 | ASCII `toUpperCase` of one character: lower-case letters shift to upper case, everything else is unchanged |
| JsText.UpperString | unifi-to-discord.js:28 | upper-casing keeps the length and maps each character |
| JsText.Capitalize | unifi-to-discord.js:97 | `charAt(0).toUpperCase() + slice(1)`: same length, first character upper-cased, the rest unchanged; a string not starting with a lower-case letter is unchanged |
| Timestamp.ConvertTimestamp | unifi-network-to-discord.js:46-65 | an absent timestamp gives "No timestamp available"; a present one gives the formatter's text, or "Invalid timestamp" when the formatter throws |
| Timestamp.DefaultedTimestampPresent | unifi-network-to-discord.js:95-97 | once the timestamp has been defaulted to the current time, "No timestamp available" cannot come out |
| UnifiNetwork.CategoryConfigFor | unifi-network-to-discord.js:67-76 | the subcategory's entry when it is non-empty and in the table, else the category's entry when it is in the table, else DEFAULT; the result is always a table entry |
| UnifiNetwork.EffectiveSeverity | unifi-network-to-discord.js:84 | a missing or zero severity becomes 1; any other severity is kept as it is, unclamped; the result is never 0 |
| UnifiNetwork.SeverityConfigFor | unifi-network-to-discord.js:85 | the table entry for a severity in 1..5; for any other severity, entry 1, labelled Info |
| UnifiNetwork.CategoryText | unifi-network-to-discord.js:111 | `category / subCategory` when the subcategory is non-empty, else just the category |
| UnifiNetwork.ParamsOf | unifi-network-to-discord.js:83 | `data.parameters || {}`: the parameters, or all of them absent |
| UnifiNetwork.CategoryOf | unifi-network-to-discord.js:87 | the category, defaulting to System |
| UnifiNetwork.EventNameOf | unifi-network-to-discord.js:91 | the event name, defaulting to "Network Event" |
| UnifiNetwork.SiteOf | unifi-network-to-discord.js:93 | the site, defaulting to Default |
| UnifiNetwork.TimestampOf | unifi-network-to-discord.js:95 | the event's UTC time, defaulting to the current time |
| UnifiNetwork.FooterPrefixTrimmed | unifi-network-to-discord.js:186 | trimming the footer never touches its leading brand, and trims the separating blank when no version follows |
| UnifiNetwork.FooterText | unifi-network-to-discord.js:186 | the trimmed footer is "UniFi Network" when the version is absent or blank, else "UniFi Network " followed by the version with its trailing white space removed |
| UnifiNetwork.SeverityName | unifi-network-to-discord.js:115 | the severity field's name: the severity emoji, a blank, then "Severity" |
| UnifiNetwork.KindIf | unifi-network-to-discord.js:122-128 | an optional field is pushed exactly when its value is non-empty |
| UnifiNetwork.KindIfMembership | unifi-network-to-discord.js:122-128 | a conditional push contributes its kind and nothing else, and only when the value is present |
| UnifiNetwork.FieldOf | unifi-network-to-discord.js:103-176 | the field of each kind: its name, its value from the event's data and its inline flag, as each literal or push builds it |
| UnifiNetwork.VpnKinds | unifi-network-to-discord.js:131-160 | the VPN block's kinds: for the subcategory VPN, Client, VPN, Source IP and Assigned IP, each when its parameter is present |
| UnifiNetwork.PushedKinds | unifi-network-to-discord.js:103-176 | the kinds in push order: Site, Category, Severity, then Details, the VPN kinds and WAN when present, then Time; its properties are `PushedKindsInOrder` and `PushedKindsMembership` |
| UnifiNetwork.NetworkFields | unifi-network-to-discord.js:103-176 | the embed's field list, one field per pushed kind; its properties are `NetworkFieldsShape`, `NetworkFieldPresence` and `DetailsFollowsSeverity` |
| UnifiNetwork.FieldsOf | unifi-network-to-discord.js:103-176 | one field per pushed kind |
| UnifiNetwork.FieldsOfAt | unifi-network-to-discord.js:103-176 | the i-th field is the field of the i-th pushed kind |
| UnifiNetwork.FieldsOfConcat | unifi-network-to-discord.js:103-176 | pushing more kinds appends their fields after the existing ones |
| UnifiNetwork.InPushOrderConcat | unifi-network-to-discord.js:103-176 | concatenating two groups of kinds listed in push order, the first group coming before the second, stays in push order |
| UnifiNetwork.PushedKindsInOrder | unifi-network-to-discord.js:103-176 | the field kinds follow the push order (Site, Category, Severity, Details, Client, VPN, Source IP, Assigned IP, WAN, Time), so none repeats |
| UnifiNetwork.IsPushed | unifi-network-to-discord.js:122-176 | the guard of each push: the fixed four always; Details iff there is a message; each VPN field iff the subcategory is exactly VPN and its parameter is present; WAN iff there is a WAN id |
| UnifiNetwork.PushedKindsMembership | unifi-network-to-discord.js:122-176 | Site, Category, Severity and Time are always pushed; Details iff there is a message; each VPN field iff the subcategory is exactly VPN and its parameter is present; WAN iff there is a WAN id |
| UnifiNetwork.VpnKindsMembership | unifi-network-to-discord.js:131-160 | the VPN block adds only VPN kinds, each iff the subcategory is VPN and its parameter is present |
| UnifiNetwork.NameIdentifiesKind | unifi-network-to-discord.js:105-175 | two fields with the same name are of the same kind (apart from the three fixed fields) |
| UnifiNetwork.SeverityNameEnd | unifi-network-to-discord.js:115 | the severity field name ends in the letter y, the last letter of "Severity"; no optional field name does |
| UnifiNetwork.HasFieldIffKind | unifi-network-to-discord.js:122-176 | a field with an optional kind's name is in the list iff that kind was pushed |
| UnifiNetwork.NetworkFieldsShape | unifi-network-to-discord.js:103-176 | the embed holds 4 to 10 fields; Site, Category and Severity come first with their values; Time comes last with the readable timestamp; the kinds are in push order |
| UnifiNetwork.NetworkFieldPresence | unifi-network-to-discord.js:122-169 | Details is present iff there is a message (its place right after Severity is `DetailsFollowsSeverity`); Client, VPN, Source IP and Assigned IP each iff the subcategory is VPN and the parameter is present; WAN iff there is a WAN id |
| UnifiNetwork.DetailsFollowsSeverity | unifi-network-to-discord.js:122-128 | with a message, the fourth field is Details with the message, right after Severity |
| UnifiNetwork.IsNetworkAlert | unifi-network-to-discord.js:82 | `data && data.app === 'network'`: the payload is present and comes from the app `network` |
| UnifiNetwork.NetworkAlertRecord | unifi-network-to-discord.js:83-208 | the reference definition of the embed record that `TransformNetwork` is proved to return; its properties are `NetworkAlertEmbedFacts` and `NetworkAlertMetadataFacts` |
| UnifiNetwork.NetworkAlertEmbedFacts | unifi-network-to-discord.js:100-192 | exactly one embed; its title is the category emoji and the event name (default "Network Event"); its colour is the category's; there is no description iff there is no custom content; the footer is "UniFi Network" when there is no version; the embed has at least four fields and the record's timestamp is the last (Time) field's value |
| UnifiNetwork.NetworkAlertMetadataFacts | unifi-network-to-discord.js:83-208 | the category defaults to System and the site to Default, the subcategory is passed through; the event name defaults to "Network Event"; the severity is the raw value (1 if falsy), not clamped, with the table's label or Info; the alarm id is passed through |
| UnifiNetwork.TransformNetwork | unifi-network-to-discord.js:82-216 | exactly one result; it is an embed record iff the payload is present and its app is `network`, and that record is `NetworkAlertRecord`; otherwise it is the error record with the original data |
| UnifiNetwork.BuildNetworkFields | unifi-network-to-discord.js:103-176 | the pushes build exactly `NetworkFields` |
| UnifiNetwork.PushVpnFields | unifi-network-to-discord.js:131-160 | the VPN block appends exactly the VPN fields: for the subcategory VPN, Client, VPN, Source IP and Assigned IP, each when its parameter is present; nothing otherwise |
| UnifiNetwork.PushIf | unifi-network-to-discord.js:122-169 | a conditional push appends the field of its kind iff the value is present |
| UnifiNetwork.Push | unifi-network-to-discord.js:172-176 | a push appends the field of its kind |
| UnifiProtect.AlertConfigFor | unifi-to-discord.js:68 | the entry of the level, or DEFAULT for an unknown level |
| UnifiProtect.LevelPrefix | unifi-to-discord.js:25 | the name starts with the keyword, up to ASCII case, followed by a colon |
| UnifiProtect.TailMatchesAt | unifi-to-discord.js:25 | `(.+)$` can start at position j: at least one character remains and none of the rest is a line terminator |
| UnifiProtect.MatchLevel | unifi-to-discord.js:25 | the alternation: a keyword returned is followed by a colon and matches the start of the name up to ASCII case; none is returned only if no keyword does |
| UnifiProtect.SpaceRunEnd | unifi-to-discord.js:25 | greedy `\s*`: everything it skips is white space, and it stops at the end or at a character that is not white space |
| UnifiProtect.Backtrack | unifi-to-discord.js:25 | `\s*` giving back characters: the first position, going down, at which `(.+)$` matches, and no later one matches; None only when no position in range matches |
| UnifiProtect.MatchAlertName | unifi-to-discord.js:25 | the matcher: keyword and colon, greedy white space, then backtracking until `(.+)$` matches; `MatchAlertNameSpec` proves it against `PatternMatchesAt` |
| UnifiProtect.PatternMatchesAt | unifi-to-discord.js:25 | the pattern stated declaratively: a keyword and its colon, white space up to the capture, then one or more characters with no line terminator up to the end |
| UnifiProtect.KeywordUnique | unifi-to-discord.js:25 | at most one keyword can start a name |
| UnifiProtect.SpacePrefix | unifi-to-discord.js:25 | `\s*` can stop anywhere inside the white-space run and nowhere past it |
| UnifiProtect.MatchAlertNameSpec | unifi-to-discord.js:25 | the matcher reports no match iff the pattern has none; otherwise it reports a match of the pattern, the one with the longest white-space run, as backtracking does |
| UnifiProtect.ParseAlertName | unifi-to-discord.js:24-34 | on a match: the upper-cased keyword and `LEVEL: ` followed by the trimmed rest; without a match: INFO and the name unchanged; the level is always one of the four keywords |
| UnifiProtect.KeywordUpperCase | unifi-to-discord.js:28 | upper-casing the matched keyword text gives the keyword, whatever its case was |
| UnifiProtect.LevelHasEntry | unifi-to-discord.js:16-25 | every keyword of the pattern has its own entry in the alert table, and none is DEFAULT |
| UnifiProtect.DefaultAlertConfigUnused | unifi-to-discord.js:16-22 | the parsed level always selects its own table entry at line 68, never DEFAULT |
| UnifiProtect.SpacesOnlyRestMatches | unifi-to-discord.js:25-30 | a keyword, in any case, whose rest is only white space, not ending in a line terminator, still matches, because `\s*` gives the last character back to `(.+)`; the full name is `LEVEL: ` (so "INFO:   " and "info:   " both give "INFO: ") |
| UnifiProtect.SpacesOnlyRestMatch | unifi-to-discord.js:25 | for such a name the match captures the last character alone |
| UnifiProtect.LastCharTail | unifi-to-discord.js:25 | `(.+)$` matches the last character of the name when it is not a line terminator |
| UnifiProtect.SpaceRunToEnd | unifi-to-discord.js:25 | where only white space remains, the greedy `\s*` runs to the end |
| UnifiProtect.TrimSingleSpace | unifi-to-discord.js:29 | trimming a single white-space character leaves the empty string |
| UnifiProtect.BareKeywordUnchanged | unifi-to-discord.js:25-33 | a bare keyword in any case and colon (such as "INFO:" or "info:") does not match, since `(.+)` needs a character; it stays unchanged with level INFO |
| UnifiProtect.KeywordStartsName | unifi-to-discord.js:25 | a keyword, in any case, followed by a colon starts the name as the pattern requires |
| UnifiProtect.KeywordOnlyMatch | unifi-to-discord.js:25 | when a keyword starts the name, the alternation picks that keyword |
| UnifiProtect.ParseDefaultAlarmName | unifi-to-discord.js:63-67 | the default alarm name "Security Alert" does not match: level INFO, name unchanged |
| UnifiProtect.DeviceInfoFor | unifi-to-discord.js:78-85 | FAKE_MAC gives the test camera; otherwise the mapping entry looked up by the exact MAC; otherwise "Unknown Device (mac)" in zone unknown |
| UnifiProtect.UnknownDevice | unifi-to-discord.js:84 | the synthetic entry `Unknown Device (mac)` in zone unknown |
| UnifiProtect.MissingDeviceIsUnknownMac | unifi-to-discord.js:74-85 | a trigger without a device is resolved as the MAC "Unknown" |
| UnifiProtect.FakeMacOverridesMapping | unifi-to-discord.js:79-80 | the test camera wins even when the mapping has an entry for FAKE_MAC |
| UnifiProtect.AlarmContextOf | unifi-to-discord.js:62-76 | per alarm: the name is parsed after defaulting to "Security Alert"; the alert entry is the level's own, not DEFAULT; the link is present iff the alarm has one |
| UnifiProtect.TriggersOf | unifi-to-discord.js:64 | `alarm.triggers || []` |
| UnifiProtect.EffectiveTimestamp | unifi-to-discord.js:65 | `data.timestamp || Date.now()`, the current time being a parameter |
| UnifiProtect.LinkOf | unifi-to-discord.js:76 | `alarm.eventLocalLink || null` |
| UnifiProtect.ShowsFootage | unifi-to-discord.js:112 | the footage guard: a link, an event id, and the id is not testEventId |
| UnifiProtect.FootageLink | unifi-to-discord.js:115 | the footage field's Markdown link text |
| UnifiProtect.TriggerFields | unifi-to-discord.js:89-118 | the four fixed fields, then View Footage under its guard |
| UnifiProtect.TriggerRecord | unifi-to-discord.js:73-149 | the reference definition of one trigger's record that the loop is proved to emit; its properties are `TriggerRecordFacts` and `TriggerRecordsShareAlarm` |
| UnifiProtect.TriggerRecordFacts | unifi-to-discord.js:73-149 | one embed; the description is "Detected: key at device"; the metadata trigger, device and zone are the defaulted key and the resolved device; the fields are Location, Detection Type (capitalised key), Alert Level and Time in that order; a fifth field, View Footage with the link, is there iff there is a link and an event id that is not testEventId; footer "UniFi Protect" |
| UnifiProtect.TriggerRecordsShareAlarm | unifi-to-discord.js:67-70 | every record of one alarm has the same level, full name, readable timestamp, link, title, colour and ISO timestamp |
| UnifiProtect.MissingKeyDetectionType | unifi-to-discord.js:73-97 | a trigger without a key shows the detection type "Unknown" |
| UnifiProtect.TriggerAlerts | unifi-to-discord.js:72-150 | the loop emits one record per trigger, in trigger order, each the trigger's `TriggerRecord` |
| UnifiProtect.TriggerAlert | unifi-to-discord.js:73-149 | the loop body builds exactly the trigger's `TriggerRecord`: the device resolved by its three branches and the footage field pushed under its guard |
| UnifiProtect.TransformProtect | unifi-to-discord.js:61-158 | without an alarm, exactly the error record "No alarm data found" with the original data; with one, one record per trigger, in trigger order, and no error record (an absent or empty trigger list gives an empty list) |

## Left out

- Date handling is not modelled. This covers `new Date(...)`, `toLocaleString` with an IANA time zone, and `toISOString`. The first two are the `format` parameter; `toISOString` is the total function `iso`. In the scripts `toISOString` throws an uncaught `RangeError` on an invalid date, and the model does not capture that failure.
- The current time (`new Date().toISOString()`, `Date.now()`) is a string parameter. `Date.now()` is a number, and its formatting is part of `format`.
- The webhook URL and the time zone are configuration (`require('./config')` and the constants). The URL is a parameter; the time zone is inside `format`. `config.example.js` is sample data, so the device mapping is an abstract `map`.
- Each result of the scripts is wrapped in the workflow engine's item object `{ json: ... }`; the result records model only the inner object.
- Reading `items[0].json.body` and delivering the result to Discord belong to the workflow engine; the model starts at the payload and stops at the result list.
- Emoji strings and colour integers are opaque constants copied from the tables; only which entry gets chosen is reasoned about.
- JavaScript dynamic quirks are left out, because the payloads are modelled as typed records:
  - truthiness of non-string values;
  - prototype keys such as `toString` found in the configuration objects;
  - string severity keys;
  - the `TypeError` when the Protect payload is `undefined` or `alarm.name` is not a string.
- Unicode case mapping is left out. `toUpperCase` is ASCII-only in the model, which is exact for the matched keyword but not for a detection-type key that starts with a non-ASCII letter. The regular expression's `i` flag is exactly ASCII folding for these ASCII keywords.
- Strings are sequences of Unicode scalar values rather than UTF-16 code units. For a key that starts with an astral character, `charAt(0)` is a lone high surrogate in the scripts but a whole character in the model. The Detection Type value comes out the same either way: `toUpperCase` leaves a lone surrogate as it is and `slice(1)` puts the low surrogate back after it, while the model's ASCII `UpperChar` leaves the whole character as it is.
- A Protect variant that decodes an alarm thumbnail for attachment is not part of this model.
- `UNIFIhost` is read by the Network script but never used, so it only appears as a record field.
