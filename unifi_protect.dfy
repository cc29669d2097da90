/**
 * The UniFi Protect alert transform: one alarm webhook payload becomes one Discord
 * embed record per trigger of the alarm, or a single error record when the payload
 * holds no alarm.
 */
module UnifiProtect {
  import opened Wrappers
  import opened JsText
  import opened Timestamp
  import opened Discord

  // ---------------------------------------------------------------------------
  // Alert levels (emoji strings and colours are opaque constants)
  // ---------------------------------------------------------------------------

  datatype AlertConfig = AlertConfig(emoji: string, color: int)

  const DefaultLevel := "DEFAULT"

  const AlertConfigs: map<string, AlertConfig> := map[
    "SECURITY" := AlertConfig("🚨", 16711680),
    "WARNING" := AlertConfig("⚠️", 16753920),
    "ALERT" := AlertConfig("🔔", 16776960),
    "INFO" := AlertConfig("ℹ️", 3447003),
    DefaultLevel := AlertConfig("📹", 9936031)
  ]

  /** The alternatives of the alarm-name pattern, in the order the pattern lists them. */
  const Levels: seq<string> := ["SECURITY", "WARNING", "ALERT", "INFO"]

  /** `ALERT_CONFIGS[level] || ALERT_CONFIGS.DEFAULT`. */
  function AlertConfigFor(level: string): (c: AlertConfig)
    ensures level in AlertConfigs ==> c == AlertConfigs[level]
    ensures level !in AlertConfigs ==> c == AlertConfigs[DefaultLevel]
  {
    if level in AlertConfigs then AlertConfigs[level] else AlertConfigs[DefaultLevel]
  }

  // ---------------------------------------------------------------------------
  // parseAlertName: a hand-written matcher for /^(SECURITY|WARNING|ALERT|INFO):\s*(.+)$/i
  // ---------------------------------------------------------------------------

  /** `name` starts with the keyword `kw` (ASCII letters, any case) followed by a colon. */
  predicate LevelPrefix(name: string, kw: string) {
    |name| > |kw| && EqualIgnoringCase(name[..|kw|], kw) && name[|kw|] == ':'
  }

  /** The alternation at the start of the name: the first alternative that is followed by a colon. */
  function MatchLevel(name: string, alts: seq<string>): (r: Option<string>)
    ensures r.Some? ==> r.value in alts && LevelPrefix(name, r.value)
    ensures r.None? ==> forall a :: a in alts ==> !LevelPrefix(name, a)
  {
    if alts == [] then None
    else if LevelPrefix(name, alts[0]) then Some(alts[0])
    else MatchLevel(name, alts[1..])
  }

  /** The greedy `\s*` from position `i`: where the run of white space ends. */
  function SpaceRunEnd(s: string, i: nat): (k: nat)
    requires i <= |s|
    ensures i <= k <= |s|
    ensures AllSpace(s[i..k])
    ensures k == |s| || !IsSpace(s[k])
    decreases |s| - i
  {
    if i < |s| && IsSpace(s[i]) then
      var k := SpaceRunEnd(s, i + 1);
      assert s[i..k] == [s[i]] + s[i + 1..k];
      k
    else i
  }

  /** `(.+)$` can start at `j`: at least one more character, and no line terminator up to the end. */
  predicate TailMatchesAt(s: string, j: int) {
    0 <= j < |s| && NoLineTerminator(s[j..])
  }

  /** Backtracking of `\s*` from position `j` down to `lo`: the first position at which `(.+)$` matches. */
  function Backtrack(s: string, lo: nat, j: nat): (r: Option<nat>)
    requires lo <= j <= |s|
    ensures r.Some? ==> lo <= r.value <= j && TailMatchesAt(s, r.value)
    ensures r.Some? ==> forall j' :: r.value < j' <= j ==> !TailMatchesAt(s, j')
    ensures r.None? ==> forall j' :: lo <= j' <= j ==> !TailMatchesAt(s, j')
    decreases j - lo
  {
    if TailMatchesAt(s, j) then Some(j)
    else if j == lo then None
    else Backtrack(s, lo, j - 1)
  }

  /** Where a match of the whole pattern was found: the keyword matched by group 1, and where
      group 2 starts in the name (group 2 runs to the end). */
  datatype NameMatch = NameMatch(keyword: string, captureStart: nat)

  /** The matcher: the keyword and colon, the greedy white space, then the backtracking tail. */
  function MatchAlertName(name: string): Option<NameMatch> {
    match MatchLevel(name, Levels)
    case None => None
    case Some(kw) =>
      var i := |kw| + 1;
      match Backtrack(name, i, SpaceRunEnd(name, i))
      case None => None
      case Some(j) => Some(NameMatch(kw, j))
  }

  /** The pattern, stated declaratively: keyword `kw` and its colon, white space up to `j`,
      and from `j` to the end one or more characters none of which is a line terminator. */
  ghost predicate PatternMatchesAt(name: string, kw: string, j: int) {
    && kw in Levels
    && LevelPrefix(name, kw)
    && |kw| + 1 <= j
    && TailMatchesAt(name, j)
    && AllSpace(name[|kw| + 1..j])
  }

  /** No two keywords can both start a name, since their first letters differ. */
  lemma KeywordUnique(name: string, a: string, b: string)
    requires a in Levels && b in Levels
    requires LevelPrefix(name, a) && LevelPrefix(name, b)
    ensures a == b
  {
    assert UpperChar(name[0]) == UpperChar(a[0]) && UpperChar(name[0]) == UpperChar(b[0]);
  }

  /** Inside a run of white space every shorter prefix is white space too; past its end none is. */
  lemma {:induction false} SpacePrefix(s: string, i: nat, j: nat, k: nat)
    requires i <= j <= |s| && i <= k <= |s|
    requires AllSpace(s[i..k]) && (k == |s| || !IsSpace(s[k]))
    ensures AllSpace(s[i..j]) <==> j <= k
  {
    if j <= k {
      forall t | 0 <= t < j - i ensures IsSpace(s[i..j][t]) {
        assert s[i..j][t] == s[i..k][t];
      }
    } else {
      assert s[i..j][k - i] == s[k];
    }
  }

  /** The matcher finds exactly the matches of the pattern, and of those the one with the longest
      white-space run, as the greedy `\s*` of a backtracking engine does. */
  lemma MatchAlertNameSpec(name: string)
    ensures MatchAlertName(name).None? ==> forall kw, j :: !PatternMatchesAt(name, kw, j)
    ensures MatchAlertName(name).Some? ==>
      var m := MatchAlertName(name).value;
      && PatternMatchesAt(name, m.keyword, m.captureStart)
      && forall kw, j :: PatternMatchesAt(name, kw, j) ==> kw == m.keyword && j <= m.captureStart
  {
    match MatchLevel(name, Levels)
    case None =>
    case Some(kw) =>
      var i := |kw| + 1;
      var k := SpaceRunEnd(name, i);
      forall kw', j | PatternMatchesAt(name, kw', j) ensures kw' == kw && j <= k {
        KeywordUnique(name, kw, kw');
        SpacePrefix(name, i, j, k);
      }
      match Backtrack(name, i, k)
      case None =>
      case Some(j) =>
        SpacePrefix(name, i, j, k);
  }

  datatype AlertName = AlertName(level: string, fullName: string)

  /** `parseAlertName`: on a match, the upper-cased keyword and `LEVEL: rest` with the rest trimmed;
      otherwise the level INFO and the name unchanged. */
  function ParseAlertName(alarmName: string): (r: AlertName)
    ensures r.level in Levels
    ensures MatchAlertName(alarmName).None? ==> r == AlertName("INFO", alarmName)
    ensures MatchAlertName(alarmName).Some? ==>
      var m := MatchAlertName(alarmName).value;
      r.level == m.keyword && r.fullName == m.keyword + ": " + Trim(alarmName[m.captureStart..])
  {
    match MatchAlertName(alarmName)
    case Some(m) =>
      var level := UpperString(alarmName[..|m.keyword|]);
      KeywordUpperCase(alarmName[..|m.keyword|], m.keyword);
      AlertName(level, level + ": " + Trim(alarmName[m.captureStart..]))
    case None => AlertName("INFO", alarmName)
  }

  /** Upper-casing text that equals a keyword up to case gives the keyword. */
  lemma KeywordUpperCase(s: string, kw: string)
    requires kw in Levels && EqualIgnoringCase(s, kw)
    ensures UpperString(s) == kw
  {
    assert forall i :: 0 <= i < |kw| ==> UpperChar(kw[i]) == kw[i];
  }

  /** The level `parseAlertName` returns always selects its own entry of the alert table,
      never the DEFAULT entry. */
  lemma DefaultAlertConfigUnused(alarmName: string)
    ensures ParseAlertName(alarmName).level in AlertConfigs
    ensures ParseAlertName(alarmName).level != DefaultLevel
    ensures AlertConfigFor(ParseAlertName(alarmName).level) == AlertConfigs[ParseAlertName(alarmName).level]
  {
    LevelHasEntry(ParseAlertName(alarmName).level);
  }

  /** Every alternative of the pattern is a key of the alert table other than DEFAULT. */
  lemma LevelHasEntry(level: string)
    requires level in Levels
    ensures level in AlertConfigs && level != DefaultLevel
  {
    assert level == Levels[0] || level == Levels[1] || level == Levels[2] || level == Levels[3];
  }

  /** A keyword, spelt `s` in any case, whose rest after the colon is only white space still
      matches, provided the last character is not a line terminator: `\s*` gives that character back
      to `(.+)`, and the trim then removes it, leaving `LEVEL: ` with its trailing blank. */
  lemma SpacesOnlyRestMatches(s: string, kw: string, w: string)
    requires kw in Levels && EqualIgnoringCase(s, kw)
    requires w != [] && AllSpace(w) && !IsLineTerminator(w[|w| - 1])
    ensures ParseAlertName(s + ":" + w) == AlertName(kw, kw + ": ")
  {
    var name := s + ":" + w;
    SpacesOnlyRestMatch(s, kw, w);
    LastCharTail(s, w);
    TrimSingleSpace(w[|w| - 1]);
    assert name[..|kw|] == s;
    KeywordUpperCase(s, kw);
  }

  /** The match of such a name captures its last character alone. */
  lemma SpacesOnlyRestMatch(s: string, kw: string, w: string)
    requires kw in Levels && EqualIgnoringCase(s, kw)
    requires w != [] && AllSpace(w) && !IsLineTerminator(w[|w| - 1])
    ensures MatchAlertName(s + ":" + w) == Some(NameMatch(kw, |kw| + |w|))
  {
    var name := s + ":" + w;
    KeywordStartsName(s, kw, w);
    KeywordOnlyMatch(name, kw);
    LastCharTail(s, w);
    SpaceRunToEnd(name, |kw| + 1);
  }

  /** After the keyword `s` and its colon comes `w`; when `w` does not end in a line terminator, `(.+)$`
      matches its last character. */
  lemma LastCharTail(s: string, w: string)
    requires w != [] && !IsLineTerminator(w[|w| - 1])
    ensures var name := s + ":" + w;
      && |name| == |s| + 1 + |w|
      && name[|s| + 1..] == w
      && name[|name| - 1..] == [w[|w| - 1]]
      && TailMatchesAt(name, |name| - 1)
  {
    var name := s + ":" + w;
    assert name[|s| + 1..] == w;
    assert name[|name| - 1..] == [w[|w| - 1]];
  }

  /** A bare keyword, spelt `s` in any case, and colon does not match, since `(.+)` needs at least
      one character; the name is kept with level INFO. */
  lemma BareKeywordUnchanged(s: string, kw: string)
    requires kw in Levels && EqualIgnoringCase(s, kw)
    ensures ParseAlertName(s + ":") == AlertName("INFO", s + ":")
  {
    var name := s + ":";
    KeywordStartsName(s, kw, "");
    assert s + ":" + "" == name;
    KeywordOnlyMatch(name, kw);
  }

  /** A keyword, spelt `s` in any case, followed by a colon starts a name with that keyword. */
  lemma KeywordStartsName(s: string, kw: string, w: string)
    requires EqualIgnoringCase(s, kw)
    ensures LevelPrefix(s + ":" + w, kw)
  {
    var name := s + ":" + w;
    assert name[..|kw|] == s;
  }

  /** When a keyword starts the name, the alternation picks that keyword. */
  lemma KeywordOnlyMatch(name: string, kw: string)
    requires kw in Levels && LevelPrefix(name, kw)
    ensures MatchLevel(name, Levels) == Some(kw)
  {
    var m := MatchLevel(name, Levels);
    if m.Some? {
      KeywordUnique(name, m.value, kw);
    }
  }

  /** From a position where only white space remains, the greedy `\s*` runs to the end. */
  lemma SpaceRunToEnd(s: string, i: nat)
    requires i <= |s| && AllSpace(s[i..])
    ensures SpaceRunEnd(s, i) == |s|
  {
  }

  /** Trimming a single white-space character leaves nothing. */
  lemma TrimSingleSpace(c: char)
    requires IsSpace(c)
    ensures Trim([c]) == ""
  {
    assert TrimStart([c]) == TrimStart([c][1..]);
  }

  /** The default alarm name has no level prefix, so it is reported as INFO and unchanged. */
  lemma ParseDefaultAlarmName()
    ensures ParseAlertName(DefaultAlarmName) == AlertName("INFO", DefaultAlarmName)
  {
    var name := DefaultAlarmName;
    assert !LevelPrefix(name, "SECURITY") by {
      assert name[8] == ' ';
    }
    assert !LevelPrefix(name, "WARNING") by {
      assert UpperChar(name[0]) != UpperChar("WARNING"[0]);
    }
    assert !LevelPrefix(name, "ALERT") by {
      assert UpperChar(name[0]) != UpperChar("ALERT"[0]);
    }
    assert !LevelPrefix(name, "INFO") by {
      assert UpperChar(name[0]) != UpperChar("INFO"[0]);
    }
    assert MatchLevel(name, Levels) == None;
  }

  // ---------------------------------------------------------------------------
  // Payload and results
  // ---------------------------------------------------------------------------

  /** One trigger of an alarm; absent strings are empty. */
  datatype Trigger = Trigger(key: string, device: string, eventId: string)

  /** The alarm object; `triggers` is None when the payload has none. */
  datatype Alarm = Alarm(name: string, triggers: Option<seq<Trigger>>, eventLocalLink: string)

  /** The webhook body: an optional alarm and an optional (empty when absent) timestamp. */
  datatype ProtectPayload = ProtectPayload(alarm: Option<Alarm>, timestamp: string)

  /** A camera's display name and zone, as the device mapping holds them. */
  datatype DeviceInfo = DeviceInfo(name: string, zone: string)

  datatype ProtectResult =
    | ProtectAlert(webhookUrl: string, discordEmbed: Message, alertType: string, alarmName: string,
                   trigger: string, device: string, zone: string, eventId: Option<string>,
                   eventLink: Option<string>, timestamp: string)
    | ProtectError(error: string, originalData: ProtectPayload)

  const NoAlarmError := "No alarm data found"
  const DefaultAlarmName := "Security Alert"
  const UnknownText := "Unknown"
  const FakeMac := "FAKE_MAC"
  const TestCamera := DeviceInfo("Test Camera", "test")
  const TestEventId := "testEventId"
  const FooterBrand := "UniFi Protect"

  const LocationName := "📍 Location"
  const DetectionTypeName := "🎯 Detection Type"
  const AlertLevelName := "⚠️ Alert Level"
  const TimeName := "🕐 Time"
  const FootageName := "🎥 View Footage"

  /** The synthetic entry for a device the mapping does not know. */
  function UnknownDevice(mac: string): DeviceInfo {
    DeviceInfo("Unknown Device (" + mac + ")", "unknown")
  }

  /** Device resolution: the test device first, then the mapping, matched exactly, then the synthetic entry. */
  function DeviceInfoFor(mac: string, mapping: map<string, DeviceInfo>): (r: DeviceInfo)
    ensures mac == FakeMac ==> r == TestCamera
    ensures mac != FakeMac && mac in mapping ==> r == mapping[mac]
    ensures mac != FakeMac && mac !in mapping ==> r == UnknownDevice(mac)
  {
    if mac == FakeMac then TestCamera
    else if mac in mapping then mapping[mac]
    else UnknownDevice(mac)
  }

  /** The alarm's triggers, or none. */
  function TriggersOf(alarm: Alarm): seq<Trigger> {
    alarm.triggers.GetOr([])
  }

  /** What the transform computes once per alarm, before its loop over the triggers. */
  datatype AlarmContext = AlarmContext(alertName: AlertName, config: AlertConfig,
                                       readableTimestamp: string, isoTimestamp: string,
                                       eventLocalLink: Option<string>)

  /** The timestamp the transform uses: the payload's, or the current time when it has none. */
  function EffectiveTimestamp(timestamp: string, now: string): string {
    OrElse(timestamp, now)
  }

  function LinkOf(alarm: Alarm): Option<string> {
    if alarm.eventLocalLink != "" then Some(alarm.eventLocalLink) else None
  }

  function AlarmContextOf(alarm: Alarm, timestamp: string, now: string,
                          format: string -> Option<string>, iso: string -> string): (c: AlarmContext)
    ensures c.alertName == ParseAlertName(OrElse(alarm.name, DefaultAlarmName))
    ensures c.config == AlertConfigs[c.alertName.level] && c.alertName.level != DefaultLevel
    ensures c.eventLocalLink.Some? <==> alarm.eventLocalLink != ""
  {
    var ts := EffectiveTimestamp(timestamp, now);
    var alertName := ParseAlertName(OrElse(alarm.name, DefaultAlarmName));
    DefaultAlertConfigUnused(OrElse(alarm.name, DefaultAlarmName));
    AlarmContext(alertName, AlertConfigFor(alertName.level), ConvertTimestamp(ts, format), iso(ts), LinkOf(alarm))
  }

  /** The guard of the footage field: a link and an event id, and not the test id. */
  predicate ShowsFootage(eventLocalLink: Option<string>, eventId: Option<string>) {
    eventLocalLink.Some? && eventId.Some? && eventId.value != TestEventId
  }

  function FootageLink(link: string): string {
    "[Click here to view event](" + link + ")"
  }

  /** The embed fields of one trigger's record. */
  function TriggerFields(device: DeviceInfo, triggerKey: string, level: string, readableTimestamp: string,
                         eventLocalLink: Option<string>, eventId: Option<string>): seq<Field>
  {
    [ Field(LocationName, device.name, true),
      Field(DetectionTypeName, Capitalize(triggerKey), true),
      Field(AlertLevelName, level, true),
      Field(TimeName, readableTimestamp, false) ]
    + (if ShowsFootage(eventLocalLink, eventId) then [Field(FootageName, FootageLink(eventLocalLink.value), false)] else [])
  }

  /** The record the loop emits for one trigger. */
  function TriggerRecord(ctx: AlarmContext, t: Trigger, mapping: map<string, DeviceInfo>, webhookUrl: string): ProtectResult {
    var triggerKey := OrElse(t.key, UnknownText);
    var device := DeviceInfoFor(OrElse(t.device, UnknownText), mapping);
    var eventId := if t.eventId != "" then Some(t.eventId) else None;
    var level := ctx.alertName.level;
    var embed := Embed(
      ctx.config.emoji + " " + ctx.alertName.fullName,
      Some("Detected: " + triggerKey + " at " + device.name),
      ctx.config.color,
      TriggerFields(device, triggerKey, level, ctx.readableTimestamp, ctx.eventLocalLink, eventId),
      Footer(FooterBrand, UnifiIconUrl),
      ctx.isoTimestamp);
    ProtectAlert(webhookUrl, Message([embed]), level, ctx.alertName.fullName, triggerKey,
                 device.name, device.zone, eventId, ctx.eventLocalLink, ctx.readableTimestamp)
  }

  /** The transform: with an alarm, one record per trigger in trigger order; without one, a single error record. */
  method TransformProtect(data: ProtectPayload, mapping: map<string, DeviceInfo>, webhookUrl: string, now: string,
                          format: string -> Option<string>, iso: string -> string)
    returns (results: seq<ProtectResult>)
    ensures data.alarm.None? ==> results == [ProtectError(NoAlarmError, data)]
    ensures data.alarm.Some? ==>
      var ctx := AlarmContextOf(data.alarm.value, data.timestamp, now, format, iso);
      var triggers := TriggersOf(data.alarm.value);
      && |results| == |triggers|
      && forall k :: 0 <= k < |triggers| ==> results[k] == TriggerRecord(ctx, triggers[k], mapping, webhookUrl)
    ensures data.alarm.Some? ==> forall k :: 0 <= k < |results| ==> results[k].ProtectAlert?
  {
    results := [];
    if data.alarm.Some? {
      var alarm := data.alarm.value;
      var rawAlarmName := OrElse(alarm.name, DefaultAlarmName);
      var triggers := alarm.triggers.GetOr([]);
      var timestamp := OrElse(data.timestamp, now);
      var alertName := ParseAlertName(rawAlarmName);
      var level, fullName := alertName.level, alertName.fullName;
      var alertConfig := AlertConfigFor(level);
      var readableTimestamp := ConvertTimestamp(timestamp, format);
      ghost var ctx := AlarmContextOf(alarm, data.timestamp, now, format, iso);
      results := TriggerAlerts(alarm, triggers, level, fullName, alertConfig, readableTimestamp, iso(timestamp),
                               mapping, webhookUrl, ctx);
    } else {
      results := results + [ProtectError(NoAlarmError, data)];
    }
  }

  /** The loop over the triggers: one record per trigger, in trigger order. */
  method TriggerAlerts(alarm: Alarm, triggers: seq<Trigger>, level: string, fullName: string,
                       alertConfig: AlertConfig, readableTimestamp: string, isoTimestamp: string,
                       mapping: map<string, DeviceInfo>, webhookUrl: string, ghost ctx: AlarmContext)
    returns (results: seq<ProtectResult>)
    requires ctx == AlarmContext(AlertName(level, fullName), alertConfig, readableTimestamp, isoTimestamp, LinkOf(alarm))
    ensures |results| == |triggers|
    ensures forall k :: 0 <= k < |triggers| ==> results[k] == TriggerRecord(ctx, triggers[k], mapping, webhookUrl)
  {
    results := [];
    var i := 0;
    while i < |triggers|
      invariant 0 <= i <= |triggers|
      invariant |results| == i
      invariant forall k :: 0 <= k < i ==> results[k] == TriggerRecord(ctx, triggers[k], mapping, webhookUrl)
    {
      var record := TriggerAlert(alarm, triggers[i], level, fullName, alertConfig, readableTimestamp, isoTimestamp,
                                 mapping, webhookUrl, ctx);
      results := results + [record];
      i := i + 1;
    }
  }

  /** The body of the loop over the triggers: one trigger's record. */
  method TriggerAlert(alarm: Alarm, trigger: Trigger, level: string, fullName: string, alertConfig: AlertConfig,
                      readableTimestamp: string, isoTimestamp: string, mapping: map<string, DeviceInfo>,
                      webhookUrl: string, ghost ctx: AlarmContext)
    returns (record: ProtectResult)
    requires ctx == AlarmContext(AlertName(level, fullName), alertConfig, readableTimestamp, isoTimestamp, LinkOf(alarm))
    ensures record == TriggerRecord(ctx, trigger, mapping, webhookUrl)
  {
    var triggerKey := OrElse(trigger.key, UnknownText);
    var deviceMac := OrElse(trigger.device, UnknownText);
    var eventId := if trigger.eventId != "" then Some(trigger.eventId) else None;
    var eventLocalLink := if alarm.eventLocalLink != "" then Some(alarm.eventLocalLink) else None;
    var deviceInfo;
    if deviceMac == FakeMac {
      deviceInfo := TestCamera;
    } else if deviceMac in mapping {
      deviceInfo := mapping[deviceMac];
    } else {
      deviceInfo := UnknownDevice(deviceMac);
    }
    var title := alertConfig.emoji + " " + fullName;
    var fields := [
      Field(LocationName, deviceInfo.name, true),
      Field(DetectionTypeName, Capitalize(triggerKey), true),
      Field(AlertLevelName, level, true),
      Field(TimeName, readableTimestamp, false)
    ];
    if eventLocalLink.Some? && eventId.Some? && eventId.value != TestEventId {
      fields := fields + [Field(FootageName, FootageLink(eventLocalLink.value), false)];
    }
    assert deviceInfo == DeviceInfoFor(deviceMac, mapping);
    assert fields == TriggerFields(deviceInfo, triggerKey, level, readableTimestamp, eventLocalLink, eventId);
    var discordEmbed := Message([Embed(title, Some("Detected: " + triggerKey + " at " + deviceInfo.name),
                                       alertConfig.color, fields, Footer(FooterBrand, UnifiIconUrl), isoTimestamp)]);
    record := ProtectAlert(webhookUrl, discordEmbed, level, fullName, triggerKey, deviceInfo.name,
                           deviceInfo.zone, eventId, eventLocalLink, readableTimestamp);
  }

  // ---------------------------------------------------------------------------
  // Properties of the per-trigger records
  // ---------------------------------------------------------------------------

  /** A missing device is looked up as the MAC "Unknown". */
  lemma MissingDeviceIsUnknownMac(mapping: map<string, DeviceInfo>)
    ensures UnknownText !in mapping ==>
      DeviceInfoFor(OrElse("", UnknownText), mapping) == DeviceInfo("Unknown Device (Unknown)", "unknown")
    ensures UnknownText in mapping ==> DeviceInfoFor(OrElse("", UnknownText), mapping) == mapping[UnknownText]
  {
  }

  /** The test device wins over a mapping entry for the same MAC. */
  lemma FakeMacOverridesMapping(mapping: map<string, DeviceInfo>, info: DeviceInfo)
    ensures DeviceInfoFor(FakeMac, mapping[FakeMac := info]) == TestCamera
  {
  }

  /** The shape of one trigger's record: its description, metadata and fields. */
  lemma TriggerRecordFacts(ctx: AlarmContext, t: Trigger, mapping: map<string, DeviceInfo>, webhookUrl: string)
    ensures var r := TriggerRecord(ctx, t, mapping, webhookUrl);
      var key := OrElse(t.key, UnknownText);
      var device := DeviceInfoFor(OrElse(t.device, UnknownText), mapping);
      && r.ProtectAlert?
      && |r.discordEmbed.embeds| == 1
      && r.trigger == key && r.device == device.name && r.zone == device.zone
      && (r.eventId.Some? <==> t.eventId != "")
      && r.eventLink == ctx.eventLocalLink
      && var e := r.discordEmbed.embeds[0];
      && e.description == Some("Detected: " + key + " at " + device.name)
      && e.footer.text == FooterBrand
      && 4 <= |e.fields| <= 5
      && e.fields[0] == Field(LocationName, device.name, true)
      && e.fields[1] == Field(DetectionTypeName, Capitalize(key), true)
      && e.fields[2] == Field(AlertLevelName, ctx.alertName.level, true)
      && e.fields[3] == Field(TimeName, ctx.readableTimestamp, false)
      && (|e.fields| == 5 <==> ctx.eventLocalLink.Some? && t.eventId != "" && t.eventId != TestEventId)
      && (|e.fields| == 5 ==> e.fields[4] == Field(FootageName, FootageLink(ctx.eventLocalLink.value), false))
  {
  }

  /** Records of the same alarm agree on everything that comes from the alarm rather than the trigger. */
  lemma TriggerRecordsShareAlarm(ctx: AlarmContext, t1: Trigger, t2: Trigger,
                                 mapping: map<string, DeviceInfo>, webhookUrl: string)
    ensures var r1, r2 := TriggerRecord(ctx, t1, mapping, webhookUrl), TriggerRecord(ctx, t2, mapping, webhookUrl);
      && r1.alertType == r2.alertType == ctx.alertName.level
      && r1.alarmName == r2.alarmName == ctx.alertName.fullName
      && r1.timestamp == r2.timestamp == ctx.readableTimestamp
      && r1.eventLink == r2.eventLink
      && r1.discordEmbed.embeds[0].title == r2.discordEmbed.embeds[0].title
         == ctx.config.emoji + " " + ctx.alertName.fullName
      && r1.discordEmbed.embeds[0].color == r2.discordEmbed.embeds[0].color == ctx.config.color
      && r1.discordEmbed.embeds[0].timestamp == r2.discordEmbed.embeds[0].timestamp
  {
  }

  /** With a trigger without a key the detection type reads "Unknown". */
  lemma MissingKeyDetectionType(ctx: AlarmContext, t: Trigger, mapping: map<string, DeviceInfo>, webhookUrl: string)
    requires t.key == ""
    ensures TriggerRecord(ctx, t, mapping, webhookUrl).discordEmbed.embeds[0].fields[1].value == UnknownText
  {
  }
}
