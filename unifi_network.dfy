/**
 * The UniFi Network alert transform: one webhook payload from a UniFi Network
 * controller becomes exactly one result record, either a Discord embed with its
 * routing metadata or an error record.
 */
module UnifiNetwork {
  import opened Wrappers
  import opened JsText
  import opened Timestamp
  import opened Discord

  // ---------------------------------------------------------------------------
  // Configuration tables (emoji strings and colours are opaque constants)
  // ---------------------------------------------------------------------------

  datatype CategoryConfig = CategoryConfig(emoji: string, color: int)

  datatype SeverityConfig = SeverityConfig(severityLabel: string, emoji: string, color: int)

  const DefaultKey := "DEFAULT"

  const CategoryConfigs: map<string, CategoryConfig> := map[
    "VPN" := CategoryConfig("🔐", 5763719),
    "Firewall" := CategoryConfig("🛡️", 15548997),
    "WiFi" := CategoryConfig("📶", 3447003),
    "System" := CategoryConfig("⚙️", 9936031),
    "Switching" := CategoryConfig("🔌", 15105570),
    "Routing" := CategoryConfig("🌐", 10181046),
    "Threat" := CategoryConfig("⚠️", 15548997),
    DefaultKey := CategoryConfig("📡", 5793266)
  ]

  /** UniFi severities run from 1 to 5, lower being more severe. */
  const SeverityConfigs: map<int, SeverityConfig> := map[
    1 := SeverityConfig("Info", "ℹ️", 3447003),
    2 := SeverityConfig("Notice", "📋", 5793266),
    3 := SeverityConfig("Warning", "⚠️", 16776960),
    4 := SeverityConfig("Error", "❌", 15105570),
    5 := SeverityConfig("Critical", "🚨", 15548997)
  ]

  // ---------------------------------------------------------------------------
  // Payload and result records; an empty string stands for an absent or falsy field
  // ---------------------------------------------------------------------------

  /** `parameters` of the payload, under the controller's own names in the comments. */
  datatype NetworkParams = NetworkParams(
    category: string,     // UNIFIcategory
    subCategory: string,  // UNIFIsubCategory
    site: string,         // UNIFIsite
    host: string,         // UNIFIhost, read but never used
    utcTime: string,      // UNIFIutcTime
    user: string,         // suser
    vpnName: string,      // UNIFIvpnName
    sourceIp: string,     // src
    clientIp: string,     // UNIFIclientIp
    wanId: string)        // UNIFIwanId

  const EmptyParams := NetworkParams("", "", "", "", "", "", "", "", "", "")

  datatype NetworkPayload = NetworkPayload(
    app: string,
    parameters: Option<NetworkParams>,
    severity: Option<int>,
    name: string,
    message: string,
    customContent: string,
    version: string,
    alarmId: Option<string>)  // alarm_id, passed through as it is

  datatype NetworkResult =
    | NetworkAlert(
        webhookUrl: string,
        discordEmbed: Message,
        category: string,
        subCategory: string,
        severity: int,
        severityLabel: string,
        eventName: string,
        site: string,
        alarmId: Option<string>,
        timestamp: string)
    | NetworkError(error: string, originalData: Option<NetworkPayload>)

  const WrongAppError := "No network alert data found or wrong app type"

  // ---------------------------------------------------------------------------
  // Lookups
  // ---------------------------------------------------------------------------

  /** `getCategoryConfig`: the subcategory's entry, else the category's entry, else the default. */
  function CategoryConfigFor(category: string, subCategory: string): (c: CategoryConfig)
    ensures c in CategoryConfigs.Values
    ensures subCategory != "" && subCategory in CategoryConfigs ==> c == CategoryConfigs[subCategory]
    ensures subCategory !in CategoryConfigs && category != "" && category in CategoryConfigs
      ==> c == CategoryConfigs[category]
    ensures subCategory !in CategoryConfigs && category !in CategoryConfigs ==> c == CategoryConfigs[DefaultKey]
  {
    if subCategory != "" && subCategory in CategoryConfigs then CategoryConfigs[subCategory]
    else if category != "" && category in CategoryConfigs then CategoryConfigs[category]
    else CategoryConfigs[DefaultKey]
  }

  /** `data.severity || 1`: absent and 0 become 1; every other value is kept, unclamped. */
  function EffectiveSeverity(raw: Option<int>): (s: int)
    ensures s != 0
    ensures raw.Some? && raw.value != 0 ==> s == raw.value
    ensures raw == None || raw == Some(0) ==> s == 1
  {
    if raw.Some? && raw.value != 0 then raw.value else 1
  }

  /** `SEVERITY_CONFIGS[severity] || SEVERITY_CONFIGS[1]`. */
  function SeverityConfigFor(severity: int): (c: SeverityConfig)
    ensures 1 <= severity <= 5 ==> c == SeverityConfigs[severity]
    ensures !(1 <= severity <= 5) ==> c == SeverityConfigs[1] && c.severityLabel == "Info"
  {
    if severity in SeverityConfigs then SeverityConfigs[severity] else SeverityConfigs[1]
  }

  // ---------------------------------------------------------------------------
  // Defaults of the main body
  // ---------------------------------------------------------------------------

  function CategoryOf(p: NetworkParams): string { OrElse(p.category, "System") }
  function SiteOf(p: NetworkParams): string { OrElse(p.site, "Default") }
  function EventNameOf(d: NetworkPayload): string { OrElse(d.name, "Network Event") }
  function ParamsOf(d: NetworkPayload): NetworkParams { d.parameters.GetOr(EmptyParams) }

  /** `params.UNIFIutcTime || new Date().toISOString()`, the current time being `nowIso`. */
  function TimestampOf(p: NetworkParams, nowIso: string): string { OrElse(p.utcTime, nowIso) }

  /** The Category field's value. */
  function CategoryText(category: string, subCategory: string): (r: string)
    ensures subCategory != "" ==> r == category + " / " + subCategory
    ensures subCategory == "" ==> r == category
  {
    if subCategory != "" then category + " / " + subCategory else category
  }

  const FooterBrand := "UniFi Network"

  lemma FooterPrefixTrimmed(version: string)
    ensures TrimStart(FooterBrand + " " + version) == FooterBrand + " " + version
    ensures TrimEnd(FooterBrand + " ") == FooterBrand
  {
    var s := FooterBrand + " " + version;
    assert s[0] == 'U' && !IsSpace(s[0]);
    var t := FooterBrand + " ";
    assert t[|t| - 1] == ' ' && t[..|t| - 1] == FooterBrand;
    assert FooterBrand[|FooterBrand| - 1] == 'k' && !IsSpace('k');
  }

  /** The footer text `UniFi Network ${version}` after `trim`. */
  function FooterText(version: string): (r: string)
    ensures AllSpace(version) ==> r == FooterBrand
    ensures !AllSpace(version) ==> r == FooterBrand + " " + TrimEnd(version)
  {
    FooterPrefixTrimmed(version);
    if AllSpace(version) then
      TrimEndSpaceTail(FooterBrand + " ", version);
      Trim(FooterBrand + " " + version)
    else
      TrimEndKeepsPrefix(FooterBrand + " ", version);
      Trim(FooterBrand + " " + version)
  }

  // ---------------------------------------------------------------------------
  // Fields
  // ---------------------------------------------------------------------------

  const SiteName := "📍 Site"
  const CategoryName := "📁 Category"
  const SeverityNameSuffix := " Severity"
  const DetailsName := "💬 Details"
  const ClientName := "👤 Client"
  const VpnName := "🔐 VPN"
  const SourceIpName := "🌐 Source IP"
  const AssignedIpName := "📍 Assigned IP"
  const WanName := "🔗 WAN"
  const TimeName := "🕐 Time"

  function SeverityName(sev: SeverityConfig): string { sev.emoji + SeverityNameSuffix }


  /** The fields the source can push, in the order it pushes them. */
  datatype FieldKind =
    | SiteField | CategoryField | SeverityField | DetailsField
    | ClientField | VpnNameField | SourceIpField | AssignedIpField | WanField | TimeField

  /** The place of a kind in the push order. */
  function Position(k: FieldKind): int {
    match k
    case SiteField => 0
    case CategoryField => 1
    case SeverityField => 2
    case DetailsField => 3
    case ClientField => 4
    case VpnNameField => 5
    case SourceIpField => 6
    case AssignedIpField => 7
    case WanField => 8
    case TimeField => 9
  }

  /** The field of a kind, built from the event's data as the source builds it. */
  function FieldOf(k: FieldKind, p: NetworkParams, sev: SeverityConfig, message: string, readableTimestamp: string)
    : Field
  {
    match k
    case SiteField => Field(SiteName, SiteOf(p), true)
    case CategoryField => Field(CategoryName, CategoryText(CategoryOf(p), p.subCategory), true)
    case SeverityField => Field(SeverityName(sev), sev.severityLabel, true)
    case DetailsField => Field(DetailsName, message, false)
    case ClientField => Field(ClientName, p.user, true)
    case VpnNameField => Field(VpnName, p.vpnName, true)
    case SourceIpField => Field(SourceIpName, p.sourceIp, true)
    case AssignedIpField => Field(AssignedIpName, p.clientIp, true)
    case WanField => Field(WanName, p.wanId, true)
    case TimeField => Field(TimeName, readableTimestamp, false)
  }

  /** `[k]` when the value it shows is present (truthy), else nothing. */
  function KindIf(value: string, k: FieldKind): (r: seq<FieldKind>)
    ensures value != "" <==> r == [k]
    ensures value == "" <==> r == []
  {
    if value != "" then [k] else []
  }

  /** The kinds a VPN event adds, each only when its parameter is present. */
  function VpnKinds(p: NetworkParams): seq<FieldKind> {
    if p.subCategory == "VPN" then
      KindIf(p.user, ClientField) + KindIf(p.vpnName, VpnNameField)
      + KindIf(p.sourceIp, SourceIpField) + KindIf(p.clientIp, AssignedIpField)
    else []
  }

  /** The kinds of field the embed holds, in order: three fixed ones, the optional ones, then Time. */
  function PushedKinds(p: NetworkParams, message: string): seq<FieldKind> {
    [SiteField, CategoryField, SeverityField]
    + KindIf(message, DetailsField)
    + VpnKinds(p)
    + KindIf(p.wanId, WanField)
    + [TimeField]
  }

  function FieldsOf(ks: seq<FieldKind>, p: NetworkParams, sev: SeverityConfig, message: string, ts: string)
    : (r: seq<Field>)
    ensures |r| == |ks|
    decreases |ks|
  {
    if ks == [] then [] else [FieldOf(ks[0], p, sev, message, ts)] + FieldsOf(ks[1..], p, sev, message, ts)
  }

  /** The field list of the embed. */
  function NetworkFields(p: NetworkParams, sev: SeverityConfig, message: string, readableTimestamp: string)
    : seq<Field>
  {
    FieldsOf(PushedKinds(p, message), p, sev, message, readableTimestamp)
  }

  lemma {:induction false} FieldsOfAt(ks: seq<FieldKind>, p: NetworkParams, sev: SeverityConfig, message: string,
                                      ts: string)
    ensures forall i :: 0 <= i < |ks| ==> FieldsOf(ks, p, sev, message, ts)[i] == FieldOf(ks[i], p, sev, message, ts)
    decreases |ks|
  {
    if ks != [] {
      FieldsOfAt(ks[1..], p, sev, message, ts);
    }
  }

  lemma {:induction false} FieldsOfConcat(a: seq<FieldKind>, b: seq<FieldKind>, p: NetworkParams,
                                          sev: SeverityConfig, message: string, ts: string)
    ensures FieldsOf(a + b, p, sev, message, ts) == FieldsOf(a, p, sev, message, ts) + FieldsOf(b, p, sev, message, ts)
    decreases |a|
  {
    if a == [] {
      assert a + b == b;
    } else {
      assert (a + b)[1..] == a[1..] + b;
      FieldsOfConcat(a[1..], b, p, sev, message, ts);
    }
  }

  /** Kinds strictly follow the push order, so none appears twice. */
  predicate InPushOrder(ks: seq<FieldKind>) {
    forall i, j :: 0 <= i < j < |ks| ==> Position(ks[i]) < Position(ks[j])
  }

  predicate PositionsWithin(ks: seq<FieldKind>, lo: int, hi: int) {
    forall i :: 0 <= i < |ks| ==> lo <= Position(ks[i]) < hi
  }

  lemma InPushOrderConcat(a: seq<FieldKind>, b: seq<FieldKind>, lo: int, mid: int, hi: int)
    requires lo <= mid <= hi
    requires InPushOrder(a) && PositionsWithin(a, lo, mid)
    requires InPushOrder(b) && PositionsWithin(b, mid, hi)
    ensures InPushOrder(a + b) && PositionsWithin(a + b, lo, hi)
  {
  }

  lemma PushedKindsInOrder(p: NetworkParams, message: string)
    ensures InPushOrder(PushedKinds(p, message))
  {
    var a, b, c, d := KindIf(p.user, ClientField), KindIf(p.vpnName, VpnNameField),
                      KindIf(p.sourceIp, SourceIpField), KindIf(p.clientIp, AssignedIpField);
    if p.subCategory == "VPN" {
      InPushOrderConcat(a, b, 4, 5, 6);
      InPushOrderConcat(a + b, c, 4, 6, 7);
      InPushOrderConcat(a + b + c, d, 4, 7, 8);
    }
    var lead, details, vpn, wan := [SiteField, CategoryField, SeverityField], KindIf(message, DetailsField),
                                   VpnKinds(p), KindIf(p.wanId, WanField);
    assert InPushOrder(vpn) && PositionsWithin(vpn, 4, 8);
    InPushOrderConcat(lead, details, 0, 3, 4);
    InPushOrderConcat(lead + details, vpn, 0, 4, 8);
    InPushOrderConcat(lead + details + vpn, wan, 0, 8, 9);
    InPushOrderConcat(lead + details + vpn + wan, [TimeField], 0, 9, 10);
  }

  /** When the source pushes a field of kind `k`: the fixed four always, Details when there is a message,
      the VPN fields for the subcategory VPN when their parameter is present, WAN when there is a WAN id. */
  predicate IsPushed(k: FieldKind, p: NetworkParams, message: string) {
    match k
    case SiteField => true
    case CategoryField => true
    case SeverityField => true
    case DetailsField => message != ""
    case ClientField => p.subCategory == "VPN" && p.user != ""
    case VpnNameField => p.subCategory == "VPN" && p.vpnName != ""
    case SourceIpField => p.subCategory == "VPN" && p.sourceIp != ""
    case AssignedIpField => p.subCategory == "VPN" && p.clientIp != ""
    case WanField => p.wanId != ""
    case TimeField => true
  }

  /** Which kinds are pushed: exactly those the source pushes. */
  lemma PushedKindsMembership(p: NetworkParams, message: string)
    ensures forall k :: k in PushedKinds(p, message) <==> IsPushed(k, p, message)
  {
    var lead, details, vpn, wan := [SiteField, CategoryField, SeverityField], KindIf(message, DetailsField),
                                   VpnKinds(p), KindIf(p.wanId, WanField);
    VpnKindsMembership(p);
    assert PushedKinds(p, message) == lead + details + vpn + wan + [TimeField];
    KindIfMembership(message, DetailsField);
    KindIfMembership(p.wanId, WanField);
    forall k ensures k in PushedKinds(p, message) <==> IsPushed(k, p, message) {
      assert k in PushedKinds(p, message) <==> k in lead || k in details || k in vpn || k in wan || k == TimeField;
    }
  }

  lemma KindIfMembership(value: string, k: FieldKind)
    ensures forall k' :: k' in KindIf(value, k) <==> k' == k && value != ""
  {
  }

  lemma VpnKindsMembership(p: NetworkParams)
    ensures var ks := VpnKinds(p);
      && (forall k :: k in ks ==> 4 <= Position(k) < 8)
      && (ClientField in ks <==> p.subCategory == "VPN" && p.user != "")
      && (VpnNameField in ks <==> p.subCategory == "VPN" && p.vpnName != "")
      && (SourceIpField in ks <==> p.subCategory == "VPN" && p.sourceIp != "")
      && (AssignedIpField in ks <==> p.subCategory == "VPN" && p.clientIp != "")
  {
    if p.subCategory == "VPN" {
      var a, b, c, d := KindIf(p.user, ClientField), KindIf(p.vpnName, VpnNameField),
                        KindIf(p.sourceIp, SourceIpField), KindIf(p.clientIp, AssignedIpField);
      assert VpnKinds(p) == a + b + c + d;
      assert forall k :: k in a ==> k == ClientField;
      assert forall k :: k in b ==> k == VpnNameField;
      assert forall k :: k in c ==> k == SourceIpField;
      assert forall k :: k in d ==> k == AssignedIpField;
    }
  }

  /** The name of a field tells its kind apart from every other kind. */
  lemma {:induction false} NameIdentifiesKind(k: FieldKind, p: NetworkParams, sev: SeverityConfig, message: string,
                                              ts: string, other: FieldKind)
    requires other != SiteField && other != CategoryField && other != SeverityField
    requires FieldOf(k, p, sev, message, ts).name == FieldOf(other, p, sev, message, ts).name
    ensures k == other
  {
    SeverityNameEnd(sev);
  }

  /** Severity field names end in `y`; no optional field name does. */
  lemma SeverityNameEnd(sev: SeverityConfig)
    ensures var s := SeverityName(sev); |s| > 0 && s[|s| - 1] == 'y'
    ensures forall n :: n in [DetailsName, ClientName, VpnName, SourceIpName, AssignedIpName, WanName, TimeName] ==>
      |n| > 0 && n[|n| - 1] != 'y'
  {
  }

  /** A field with this name is in the list. */
  predicate HasField(fs: seq<Field>, name: string) {
    exists i :: 0 <= i < |fs| && fs[i].name == name
  }

  lemma {:induction false} HasFieldIffKind(ks: seq<FieldKind>, k: FieldKind, p: NetworkParams, sev: SeverityConfig,
                                           message: string, ts: string)
    requires k != SiteField && k != CategoryField && k != SeverityField
    ensures HasField(FieldsOf(ks, p, sev, message, ts), FieldOf(k, p, sev, message, ts).name) <==> k in ks
  {
    var fs := FieldsOf(ks, p, sev, message, ts);
    var name := FieldOf(k, p, sev, message, ts).name;
    FieldsOfAt(ks, p, sev, message, ts);
    if HasField(fs, name) {
      var i :| 0 <= i < |fs| && fs[i].name == name;
      NameIdentifiesKind(ks[i], p, sev, message, ts, k);
    }
    if k in ks {
      var i :| 0 <= i < |ks| && ks[i] == k;
      assert fs[i].name == name;
    }
  }

  /** The embed's field list: Site, Category and Severity first, Time last, 4 to 10 fields in all, each
      field built from the event's data, and the kinds in push order with none repeated. */
  lemma NetworkFieldsShape(p: NetworkParams, sev: SeverityConfig, message: string, ts: string)
    ensures var f := NetworkFields(p, sev, message, ts);
      var ks := PushedKinds(p, message);
      && 4 <= |f| <= 10
      && f[0] == Field(SiteName, SiteOf(p), true)
      && f[1] == Field(CategoryName, CategoryText(CategoryOf(p), p.subCategory), true)
      && f[2] == Field(SeverityName(sev), sev.severityLabel, true)
      && f[|f| - 1] == Field(TimeName, ts, false)
      && |ks| == |f|
      && (forall i :: 0 <= i < |f| ==> f[i] == FieldOf(ks[i], p, sev, message, ts))
      && InPushOrder(ks)
  {
    var ks := PushedKinds(p, message);
    FieldsOfAt(ks, p, sev, message, ts);
    PushedKindsInOrder(p, message);
    assert |VpnKinds(p)| <= 4;
  }

  /** Each optional field is present exactly when the source pushes it. */
  lemma NetworkFieldPresence(p: NetworkParams, sev: SeverityConfig, message: string, ts: string)
    ensures var f := NetworkFields(p, sev, message, ts);
      && (HasField(f, DetailsName) <==> message != "")
      && (HasField(f, ClientName) <==> p.subCategory == "VPN" && p.user != "")
      && (HasField(f, VpnName) <==> p.subCategory == "VPN" && p.vpnName != "")
      && (HasField(f, SourceIpName) <==> p.subCategory == "VPN" && p.sourceIp != "")
      && (HasField(f, AssignedIpName) <==> p.subCategory == "VPN" && p.clientIp != "")
      && (HasField(f, WanName) <==> p.wanId != "")
  {
    var ks := PushedKinds(p, message);
    PushedKindsMembership(p, message);
    HasFieldIffKind(ks, DetailsField, p, sev, message, ts);
    HasFieldIffKind(ks, ClientField, p, sev, message, ts);
    HasFieldIffKind(ks, VpnNameField, p, sev, message, ts);
    HasFieldIffKind(ks, SourceIpField, p, sev, message, ts);
    HasFieldIffKind(ks, AssignedIpField, p, sev, message, ts);
    HasFieldIffKind(ks, WanField, p, sev, message, ts);
  }

  /** With a message, the Details field comes right after Severity. */
  lemma DetailsFollowsSeverity(p: NetworkParams, sev: SeverityConfig, message: string, ts: string)
    ensures var f := NetworkFields(p, sev, message, ts);
      message != "" ==> |f| > 3 && f[3] == Field(DetailsName, message, false)
  {
    if message != "" {
      var ks := PushedKinds(p, message);
      assert ks[3] == DetailsField;
      FieldsOfAt(ks, p, sev, message, ts);
    }
  }

  // ---------------------------------------------------------------------------
  // The result record and the main body
  // ---------------------------------------------------------------------------

  /** The payload is a Network alert: present, from the app `network`. */
  predicate IsNetworkAlert(data: Option<NetworkPayload>) {
    data.Some? && data.value.app == "network"
  }

  /** The embed record built for a Network alert. `nowIso` is the current time as an ISO string,
      `format` the readable formatter and `iso` the host's `toISOString` of a timestamp. */
  function NetworkAlertRecord(d: NetworkPayload, webhookUrl: string, nowIso: string,
                              format: string -> Option<string>, iso: string -> string): NetworkResult
  {
    var p := ParamsOf(d);
    var severity := EffectiveSeverity(d.severity);
    var sev := SeverityConfigFor(severity);
    var category := CategoryOf(p);
    var cat := CategoryConfigFor(category, p.subCategory);
    var eventName := EventNameOf(d);
    var timestamp := TimestampOf(p, nowIso);
    var readable := ConvertTimestamp(timestamp, format);
    var embed := Embed(
      cat.emoji + " " + eventName,
      if d.customContent != "" then Some(d.customContent) else None,
      cat.color,
      NetworkFields(p, sev, d.message, readable),
      Footer(FooterText(d.version), UnifiIconUrl),
      iso(timestamp));
    NetworkAlert(webhookUrl, Message([embed]), category, p.subCategory, severity, sev.severityLabel, eventName,
                 SiteOf(p), d.alarmId, readable)
  }

  /** The embed of the record: one embed, titled with the category emoji and the event name, coloured
      by the category, without description when there is no custom content, and stamped with the same
      readable timestamp as its Time field. */
  lemma NetworkAlertEmbedFacts(d: NetworkPayload, webhookUrl: string, nowIso: string,
                               format: string -> Option<string>, iso: string -> string)
    ensures var r := NetworkAlertRecord(d, webhookUrl, nowIso, format, iso);
      var p := d.parameters.GetOr(EmptyParams);
      var category := if p.category != "" then p.category else "System";
      var eventName := if d.name != "" then d.name else "Network Event";
      var cat := CategoryConfigFor(category, p.subCategory);
      && r.NetworkAlert?
      && |r.discordEmbed.embeds| == 1
      && var e := r.discordEmbed.embeds[0];
      && e.title == cat.emoji + " " + eventName
      && e.color == cat.color
      && (d.customContent == "" <==> e.description == None)
      && (d.version == "" ==> e.footer.text == "UniFi Network")
      && 4 <= |e.fields|
      && r.timestamp == e.fields[|e.fields| - 1].value
  {
    var p := ParamsOf(d);
    var sev := SeverityConfigFor(EffectiveSeverity(d.severity));
    var readable := ConvertTimestamp(TimestampOf(p, nowIso), format);
    NetworkFieldsShape(p, sev, d.message, readable);
  }

  /** The routing metadata of the record: the defaulted category and event name, the raw severity
      (1 when falsy, never clamped) with the label its table lookup gives (Info outside 1..5), and the alarm id as given. */
  lemma NetworkAlertMetadataFacts(d: NetworkPayload, webhookUrl: string, nowIso: string,
                                  format: string -> Option<string>, iso: string -> string)
    ensures var r := NetworkAlertRecord(d, webhookUrl, nowIso, format, iso);
      var p := d.parameters.GetOr(EmptyParams);
      && r.NetworkAlert?
      && r.category == (if p.category != "" then p.category else "System")
      && r.subCategory == p.subCategory
      && r.eventName == (if d.name != "" then d.name else "Network Event")
      && r.site == (if p.site != "" then p.site else "Default")
      && (d.severity.Some? && d.severity.value != 0 ==> r.severity == d.severity.value)
      && (d.severity.None? || d.severity.value == 0 ==> r.severity == 1)
      && r.severityLabel == SeverityConfigFor(r.severity).severityLabel
      && r.alarmId == d.alarmId
  {
    var r := NetworkAlertRecord(d, webhookUrl, nowIso, format, iso);
    var severity := EffectiveSeverity(d.severity);
    assert r.severity == severity;
    assert r.severityLabel == SeverityConfigFor(severity).severityLabel;
  }

  /**
   * The main body: exactly one result, the embed record for a Network alert and the error record
   * otherwise. The field list is built by successive pushes, as in the source.
   */
  method TransformNetwork(data: Option<NetworkPayload>, webhookUrl: string, nowIso: string,
                          format: string -> Option<string>, iso: string -> string)
    returns (results: seq<NetworkResult>)
    ensures |results| == 1
    ensures results[0].NetworkAlert? <==> IsNetworkAlert(data)
    ensures !IsNetworkAlert(data) ==> results[0] == NetworkError(WrongAppError, data)
    ensures IsNetworkAlert(data) ==> results[0] == NetworkAlertRecord(data.value, webhookUrl, nowIso, format, iso)
  {
    results := [];
    if IsNetworkAlert(data) {
      var d := data.value;
      var params := d.parameters.GetOr(EmptyParams);
      var severity := EffectiveSeverity(d.severity);
      var severityConfig := SeverityConfigFor(severity);
      var category := OrElse(params.category, "System");
      var subCategory := params.subCategory;
      var categoryConfig := CategoryConfigFor(category, subCategory);
      var eventName := OrElse(d.name, "Network Event");
      var message := d.message;
      var site := OrElse(params.site, "Default");
      var timestamp := OrElse(params.utcTime, nowIso);
      var readableTimestamp := ConvertTimestamp(timestamp, format);
      var title := categoryConfig.emoji + " " + eventName;

      var fields := BuildNetworkFields(params, severityConfig, message, readableTimestamp);
      var embed := Embed(
        title,
        if d.customContent != "" then Some(d.customContent) else None,
        categoryConfig.color,
        fields,
        Footer(FooterText(d.version), UnifiIconUrl),
        iso(timestamp));
      results := results + [NetworkAlert(webhookUrl, Message([embed]), category, subCategory, severity,
                                         severityConfig.severityLabel, eventName, site, d.alarmId, readableTimestamp)];
    } else {
      results := results + [NetworkError(WrongAppError, data)];
    }
  }

  /** The field list, built as the source builds it: the three fixed fields, then one push per
      optional field that is present, then Time. */
  method BuildNetworkFields(params: NetworkParams, severityConfig: SeverityConfig, message: string,
                            readableTimestamp: string) returns (fields: seq<Field>)
    ensures fields == NetworkFields(params, severityConfig, message, readableTimestamp)
  {
    // `kinds` says, one kind per field, what has been pushed so far.
    ghost var kinds := [SiteField, CategoryField, SeverityField];
    fields := [
      Field(SiteName, OrElse(params.site, "Default"), true),
      Field(CategoryName, CategoryText(OrElse(params.category, "System"), params.subCategory), true),
      Field(SeverityName(severityConfig), severityConfig.severityLabel, true)
    ];
    assert fields == FieldsOf(kinds, params, severityConfig, message, readableTimestamp) by {
      FieldsOfAt(kinds, params, severityConfig, message, readableTimestamp);
    }
    fields := PushIf(fields, kinds, message, DetailsField, params, severityConfig, message, readableTimestamp);
    kinds := kinds + KindIf(message, DetailsField);
    fields := PushVpnFields(fields, kinds, params, severityConfig, message, readableTimestamp);
    kinds := kinds + VpnKinds(params);
    fields := PushIf(fields, kinds, params.wanId, WanField, params, severityConfig, message, readableTimestamp);
    kinds := kinds + KindIf(params.wanId, WanField);
    fields := Push(fields, kinds, TimeField, params, severityConfig, message, readableTimestamp);
    kinds := kinds + [TimeField];
    assert kinds == PushedKinds(params, message);
  }

  /** The VPN block: for the subcategory VPN, one conditional push per VPN parameter. */
  method PushVpnFields(fields: seq<Field>, ghost kinds: seq<FieldKind>, params: NetworkParams,
                       severityConfig: SeverityConfig, message: string, readableTimestamp: string)
    returns (r: seq<Field>)
    requires fields == FieldsOf(kinds, params, severityConfig, message, readableTimestamp)
    ensures r == FieldsOf(kinds + VpnKinds(params), params, severityConfig, message, readableTimestamp)
  {
    r := fields;
    ghost var ks := kinds;
    if params.subCategory == "VPN" {
      r := PushIf(r, ks, params.user, ClientField, params, severityConfig, message, readableTimestamp);
      ks := ks + KindIf(params.user, ClientField);
      r := PushIf(r, ks, params.vpnName, VpnNameField, params, severityConfig, message, readableTimestamp);
      ks := ks + KindIf(params.vpnName, VpnNameField);
      r := PushIf(r, ks, params.sourceIp, SourceIpField, params, severityConfig, message, readableTimestamp);
      ks := ks + KindIf(params.sourceIp, SourceIpField);
      r := PushIf(r, ks, params.clientIp, AssignedIpField, params, severityConfig, message, readableTimestamp);
      ks := ks + KindIf(params.clientIp, AssignedIpField);
    }
    assert ks == kinds + VpnKinds(params);
  }

  /** `if (value) fields.push(...)` of the field of kind `k`. */
  method PushIf(fields: seq<Field>, ghost kinds: seq<FieldKind>, value: string, k: FieldKind, p: NetworkParams,
                sev: SeverityConfig, message: string, ts: string) returns (r: seq<Field>)
    requires fields == FieldsOf(kinds, p, sev, message, ts)
    ensures r == FieldsOf(kinds + KindIf(value, k), p, sev, message, ts)
  {
    r := fields;
    if value != "" {
      r := Push(fields, kinds, k, p, sev, message, ts);
    } else {
      assert kinds + KindIf(value, k) == kinds;
    }
  }

  /** `fields.push(...)` of the field of kind `k`. */
  method Push(fields: seq<Field>, ghost kinds: seq<FieldKind>, k: FieldKind, p: NetworkParams, sev: SeverityConfig,
              message: string, ts: string) returns (r: seq<Field>)
    requires fields == FieldsOf(kinds, p, sev, message, ts)
    ensures r == FieldsOf(kinds + [k], p, sev, message, ts)
  {
    r := fields + [FieldOf(k, p, sev, message, ts)];
    FieldsOfConcat(kinds, [k], p, sev, message, ts);
  }
}
