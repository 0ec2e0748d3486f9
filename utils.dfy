/**
 * Shared utilities: the display name of a module, and the relative description of a moment
 * ("just now", "5 min ago", "3 hours ago", "2 days ago", or the formatted date).
 *
 * Moments are milliseconds since the epoch. The current time is a parameter, and the date
 * formatter, which goes through the platform's locale machinery, is a parameter too.
 */
module SharedUtils {
  import opened Prelude
  import opened JsNumbers
  import opened SharedTypes

  // ---------------------------------------------------------------------------
  // Module display names

  /** The display-name table's own entries. */
  function OwnName(name: string): (r: Option<string>)
    ensures r.Some? <==> exists m :: ModuleId(m) == name
  {
    if name == "projects" then assert ModuleId(Projects) == name; Some("Projects")
    else if name == "crm" then assert ModuleId(Crm) == name; Some("CRM")
    else if name == "invoicing" then assert ModuleId(Invoicing) == name; Some("Invoicing")
    else if name == "helpdesk" then assert ModuleId(Helpdesk) == name; Some("Helpdesk")
    else if name == "queue" then assert ModuleId(Queue) == name; Some("Queue")
    else None
  }

  /**
   * The members every object literal inherits from `Object.prototype`. Indexing the table with
   * one of these names finds the inherited member, which is truthy.
   */
  const InheritedMembers: set<string> := {
    "constructor", "hasOwnProperty", "isPrototypeOf", "propertyIsEnumerable", "toLocaleString",
    "toString", "valueOf", "__defineGetter__", "__defineSetter__", "__lookupGetter__",
    "__lookupSetter__", "__proto__"}

  /** What `names[module] || module` yields: a text, or an inherited member of the table object. */
  datatype DisplayName = Text(text: string) | InheritedMember(member: string)

  /** utils.js:7-16 — `getModuleDisplayName`, as written. */
  function GetModuleDisplayName(name: string): (r: DisplayName)
    ensures r.InheritedMember? <==> name in InheritedMembers
    ensures r.InheritedMember? ==> r.member == name
    ensures r.Text? ==> r.text == OwnDisplayName(name)
  {
    match OwnName(name)
    case Some(display) => Text(display)
    case None => if name in InheritedMembers then InheritedMember(name) else Text(name)
  }

  /** The five modules are named "Projects", "CRM", "Invoicing", "Helpdesk" and "Queue". */
  lemma ModuleDisplayNames()
    ensures GetModuleDisplayName(ModuleId(Projects)) == Text("Projects")
    ensures GetModuleDisplayName(ModuleId(Crm)) == Text("CRM")
    ensures GetModuleDisplayName(ModuleId(Invoicing)) == Text("Invoicing")
    ensures GetModuleDisplayName(ModuleId(Helpdesk)) == Text("Helpdesk")
    ensures GetModuleDisplayName(ModuleId(Queue)) == Text("Queue")
  {
  }

  /** A name that is neither a module nor an inherited member comes back unchanged. */
  lemma UnknownNameUnchanged(name: string)
    requires (forall m :: ModuleId(m) != name) && name !in InheritedMembers
    ensures GetModuleDisplayName(name) == Text(name)
  {
  }

  /** The inherited members leak: `getModuleDisplayName("toString")` is a function, not a name. */
  lemma InheritedNameLeaks()
    ensures GetModuleDisplayName("toString") == InheritedMember("toString")
    ensures GetModuleDisplayName("__proto__").InheritedMember?
  {
    assert OwnName("toString").None?;
    assert OwnName("__proto__").None?;
  }

  /** The evidently intended lookup: only the table's own entries, otherwise the input itself. */
  function OwnDisplayName(name: string): (r: string)
    ensures (exists m :: ModuleId(m) == name) ==> r == OwnName(name).value
    ensures (forall m :: ModuleId(m) != name) ==> r == name
  {
    OwnName(name).GetOr(name)
  }

  /** The corrected lookup agrees with the written one wherever that one yields a text. */
  lemma OwnDisplayNameAgrees(name: string)
    ensures GetModuleDisplayName(name).Text? ==> GetModuleDisplayName(name).text == OwnDisplayName(name)
    ensures name !in InheritedMembers ==> GetModuleDisplayName(name) == Text(OwnDisplayName(name))
    ensures OwnDisplayName("toString") == "toString"
  {
    assert OwnName("toString").None?;
  }

  // ---------------------------------------------------------------------------
  // Relative time

  const MinuteMs: int := 60000
  const HourMs: int := 3600000
  const DayMs: int := 86400000

  /** `${n} ${unit}${n > 1 ? "s" : ""} ago`. */
  function CountAgo(n: int, unit: string): string {
    IntToString(n) + " " + unit + (if n > 1 then "s" else "") + " ago"
  }

  /** utils.js:40-56 — `formatRelativeTime`, with `now` and `formatDate` as parameters. */
  function FormatRelativeTime(dateMs: int, nowMs: int, formatDate: int -> string): (r: string)
    ensures nowMs - dateMs < MinuteMs ==> r == "just now"
    ensures nowMs - dateMs >= 7 * DayMs ==> r == formatDate(dateMs)
  {
    var diffMs := nowMs - dateMs;
    var diffMins := diffMs / MinuteMs;
    var diffHours := diffMs / HourMs;
    var diffDays := diffMs / DayMs;
    FloorBelow(diffMs, MinuteMs, 1);
    FloorBelow(diffMs, MinuteMs, 60);
    FloorBelow(diffMs, HourMs, 24);
    FloorBelow(diffMs, DayMs, 7);
    if diffMins < 1 then "just now"
    else if diffMins < 60 then IntToString(diffMins) + " min ago"
    else if diffHours < 24 then CountAgo(diffHours, "hour")
    else if diffDays < 7 then CountAgo(diffDays, "day")
    else formatDate(dateMs)
  }

  /** Multiplying by a positive number keeps the order. */
  lemma MulMonotone(a: int, b: int, d: int)
    requires a <= b && d > 0
    ensures a * d <= b * d
  {
    assert b * d - a * d == (b - a) * d;
  }

  /** Floor division by a positive divisor stays below `k` exactly when the dividend stays below `k * d`. */
  lemma FloorBelow(x: int, d: int, k: int)
    requires d > 0
    ensures x / d < k <==> x < k * d
  {
    var q := x / d;
    assert x == q * d + x % d && 0 <= x % d < d;
    if q < k {
      MulMonotone(q + 1, k, d);
    } else {
      MulMonotone(k, q, d);
    }
  }

  /**
   * The five cases by elapsed milliseconds: under a minute (the future included) is "just now";
   * then whole minutes, 1 to 59, without a plural; then whole hours, 1 to 23, and whole days,
   * 1 to 6, each with "s" beyond one; from seven days on, the formatted date.
   */
  lemma RelativeTimeCases(dateMs: int, nowMs: int, formatDate: int -> string)
    ensures var diff := nowMs - dateMs;
      var r := FormatRelativeTime(dateMs, nowMs, formatDate);
      && (diff < MinuteMs ==> r == "just now")
      && (MinuteMs <= diff < HourMs ==> 1 <= diff / MinuteMs <= 59 && r == IntToString(diff / MinuteMs) + " min ago")
      && (HourMs <= diff < DayMs ==> 1 <= diff / HourMs <= 23 && r == CountAgo(diff / HourMs, "hour"))
      && (DayMs <= diff < 7 * DayMs ==> 1 <= diff / DayMs <= 6 && r == CountAgo(diff / DayMs, "day"))
      && (7 * DayMs <= diff ==> r == formatDate(dateMs))
  {
    var diff := nowMs - dateMs;
    FloorBelow(diff, MinuteMs, 1);
    FloorBelow(diff, MinuteMs, 60);
    FloorBelow(diff, HourMs, 1);
    FloorBelow(diff, HourMs, 24);
    FloorBelow(diff, DayMs, 1);
    FloorBelow(diff, DayMs, 7);
  }

  /** A moment not in the past is "just now". */
  lemma FutureIsJustNow(dateMs: int, nowMs: int, formatDate: int -> string)
    requires nowMs <= dateMs
    ensures FormatRelativeTime(dateMs, nowMs, formatDate) == "just now"
  {
    RelativeTimeCases(dateMs, nowMs, formatDate);
  }

  /** The count leading a minutes, hours or days text reads back as the number of whole units elapsed. */
  lemma RelativeCountReadsBack(dateMs: int, nowMs: int, formatDate: int -> string)
    requires MinuteMs <= nowMs - dateMs < 7 * DayMs
    ensures var diff := nowMs - dateMs;
      ParseInt(FormatRelativeTime(dateMs, nowMs, formatDate)) ==
        Some(if diff < HourMs then diff / MinuteMs else if diff < DayMs then diff / HourMs else diff / DayMs)
  {
    var diff := nowMs - dateMs;
    RelativeTimeCases(dateMs, nowMs, formatDate);
    var n := if diff < HourMs then diff / MinuteMs else if diff < DayMs then diff / HourMs else diff / DayMs;
    var rest := FormatRelativeTime(dateMs, nowMs, formatDate)[|IntToString(n)|..];
    assert FormatRelativeTime(dateMs, nowMs, formatDate) == IntToString(n) + rest;
    assert rest[0] == ' ';
    ParseIntOfDecimal(n, rest);
  }
}
