/**
 * Turning the start timestamp into the date, compact time and local
 * timestamp of the configured time zone, with its two fallbacks. The
 * `Intl.DateTimeFormat` conversions are oracles that may throw.
 */
module LocalTime {
  import opened Wrappers
  import opened JsText

  /** The zone used when the `TZ` environment variable is unset or empty. */
  const DefaultTz := "__TZ__"

  /** `process.env.TZ || "__TZ__"`. */
  function ResolveTz(tzVar: Option<string>): (tz: string)
    ensures tz != ""
    ensures Falsy(tzVar) ==> tz == DefaultTz
    ensures !Falsy(tzVar) ==> tz == tzVar.value
  {
    Or(tzVar, DefaultTz)
  }

  /** One element of `formatToParts`: its `type` and its `value`. */
  datatype DatePart = DatePart(kind: string, value: string)

  /**
   * The three formatters, applied to a time zone and the raw timestamp
   * (`new Date(startTs)` included). `None` stands for a thrown exception: an
   * unknown zone, an invalid date, or any other formatting failure.
   *  - `date`: en-CA numeric year, 2-digit month and day ("2024-01-15");
   *  - `time`: en-GB 2-digit hour and minute, 24-hour clock ("09:05");
   *  - `parts`: en-GB year to second, as a list of parts.
   */
  datatype Intl = Intl(
    date: (string, string) -> Option<string>,
    time: (string, string) -> Option<string>,
    parts: (string, string) -> Option<seq<DatePart>>)

  /** The derived triple: date string, compact time, full local timestamp. */
  datatype Stamp = Stamp(dateStr: string, timePart: string, localTs: string)

  /** The compact marker used whenever no local time could be computed. */
  const NoTime := "0000"

  /** `{}` after `p[type] = value` for every part in order: a later part of the same type wins. */
  function LastValues(parts: seq<DatePart>): map<string, string>
  {
    if |parts| == 0 then map[]
    else LastValues(parts[..|parts| - 1])[parts[|parts| - 1].kind := parts[|parts| - 1].value]
  }

  /** The parts-to-object loop. */
  method PartsToMap(parts: seq<DatePart>) returns (p: map<string, string>)
    ensures p == LastValues(parts)
  {
    p := map[];
    for i := 0 to |parts|
      invariant p == LastValues(parts[..i])
    {
      assert parts[..i + 1][..i] == parts[..i];
      p := p[parts[i].kind := parts[i].value];
    }
    assert parts[..|parts|] == parts;
  }

  /** Every part type appears as a key, holding the value of its last occurrence, and nothing else is a key. */
  lemma {:induction false} LastValuesLastWins(parts: seq<DatePart>, k: string)
    ensures k in LastValues(parts) <==> exists i :: 0 <= i < |parts| && parts[i].kind == k
    ensures forall i :: 0 <= i < |parts| && parts[i].kind == k && (forall j :: i < j < |parts| ==> parts[j].kind != k)
              ==> k in LastValues(parts) && LastValues(parts)[k] == parts[i].value
  {
    if |parts| > 0 {
      var front := parts[..|parts| - 1];
      LastValuesLastWins(front, k);
      assert forall i :: 0 <= i < |front| ==> front[i] == parts[i];
    }
  }

  /** `${p.k}`: a missing part renders as "undefined". */
  function Field(p: map<string, string>, k: string): string {
    if k in p then p[k] else "undefined"
  }

  /**
   * The `${year}-${month}-${day}T${hour}:${minute}:${second}` template. Parts of
   * the usual widths give a YYYY-MM-DDTHH:MM:SS string from which each part can
   * be read back.
   */
  function LocalTimestamp(p: map<string, string>): (s: string)
    ensures
      && "year" in p && "month" in p && "day" in p && "hour" in p && "minute" in p && "second" in p
      && |p["year"]| == 4 && |p["month"]| == 2 && |p["day"]| == 2
      && |p["hour"]| == 2 && |p["minute"]| == 2 && |p["second"]| == 2
      ==>
      && |s| == 19
      && s[4] == '-' && s[7] == '-' && s[10] == 'T' && s[13] == ':' && s[16] == ':'
      && s[..4] == p["year"] && s[5..7] == p["month"] && s[8..10] == p["day"]
      && s[11..13] == p["hour"] && s[14..16] == p["minute"] && s[17..] == p["second"]
  {
    Field(p, "year") + "-" + Field(p, "month") + "-" + Field(p, "day") + "T" +
    Field(p, "hour") + ":" + Field(p, "minute") + ":" + Field(p, "second")
  }

  /** The full conversion with its three tiers: formatted, formatting failed, no start time. */
  function StampFor(startTs: Option<string>, tz: string, intl: Intl, nowIso: string): Stamp {
    if Falsy(startTs) then Stamp(Take(nowIso, 10), NoTime, "")
    else
      var ts := startTs.value;
      match (intl.date(tz, ts), intl.time(tz, ts), intl.parts(tz, ts))
      case (Some(d), Some(t), Some(ps)) => Stamp(d, RemoveFirst(t, ':'), LocalTimestamp(LastValues(ps)))
      case _ => Stamp(Take(nowIso, 10), NoTime, ts)
  }

  /**
   * The staged assignment of `dateStr`, `timePart` and `localTs`; `nowIso` is
   * `new Date().toISOString()` at the moment of the call. A formatter that
   * throws sends control to the fallback, which overwrites whatever the
   * earlier stages assigned.
   */
  method FormatStartTime(startTs: Option<string>, tz: string, intl: Intl, nowIso: string)
    returns (dateStr: string, timePart: string, localTs: string)
    ensures Stamp(dateStr, timePart, localTs) == StampFor(startTs, tz, intl, nowIso)
  {
    if !Falsy(startTs) {
      var ts := startTs.value;
      var completed := false;
      match intl.date(tz, ts) {
        case None =>
        case Some(d) =>
          dateStr := d;
          match intl.time(tz, ts) {
            case None =>
            case Some(t) =>
              timePart := RemoveFirst(t, ':');
              match intl.parts(tz, ts) {
                case None =>
                case Some(parts) =>
                  var p := PartsToMap(parts);
                  localTs := LocalTimestamp(p);
                  completed := true;
              }
          }
      }
      if !completed {
        dateStr := Take(nowIso, 10);
        timePart := NoTime;
        localTs := ts;
      }
    } else {
      dateStr := Take(nowIso, 10);
      timePart := NoTime;
      localTs := "";
    }
  }

  /** When every formatter succeeds, the date is the en-CA date and the compact time is "HH:MM" without its colon. */
  lemma StampFormatted(ts: string, tz: string, intl: Intl, nowIso: string, hh: string, mm: string)
    requires ts != ""
    requires intl.date(tz, ts).Some? && intl.parts(tz, ts).Some?
    requires intl.time(tz, ts) == Some(hh + ":" + mm) && ':' !in hh
    ensures var s := StampFor(Some(ts), tz, intl, nowIso);
      && s.dateStr == intl.date(tz, ts).value
      && s.timePart == hh + mm
      && s.localTs == LocalTimestamp(LastValues(intl.parts(tz, ts).value))
  {
    var t := hh + ":" + mm;
    assert t[..|hh|] == hh && t[|hh|] == ':' && t[|hh| + 1..] == mm;
    assert IndexOf(t, ':') == |hh|;
  }

  /** "09:05" becomes "0905". */
  lemma CompactTimeExample()
    ensures RemoveFirst("09:05", ':') == "0905"
  {
  }

  /** A formatter that throws leaves the current UTC date, "0000" and the raw start timestamp. */
  lemma StampFormatFailure(ts: string, tz: string, intl: Intl, nowIso: string)
    requires ts != ""
    requires intl.date(tz, ts).None? || intl.time(tz, ts).None? || intl.parts(tz, ts).None?
    ensures StampFor(Some(ts), tz, intl, nowIso) == Stamp(Take(nowIso, 10), NoTime, ts)
  {
  }

  /** Without a start timestamp: the current UTC date, "0000" and an empty local timestamp. */
  lemma StampWithoutStart(startTs: Option<string>, tz: string, intl: Intl, nowIso: string)
    requires Falsy(startTs)
    ensures StampFor(startTs, tz, intl, nowIso) == Stamp(Take(nowIso, 10), NoTime, "")
  {
  }

  /** The string holds exactly one colon. */
  predicate OneColon(t: string) {
    ':' in t && ':' !in t[IndexOf(t, ':') + 1..]
  }

  /**
   * The compact time is colon-free on every path, provided the time formatter
   * yields a single colon whenever it succeeds.
   */
  lemma TimePartColonFree(startTs: Option<string>, tz: string, intl: Intl, nowIso: string)
    requires !Falsy(startTs) && intl.time(tz, startTs.value).Some? ==> OneColon(intl.time(tz, startTs.value).value)
    ensures ':' !in StampFor(startTs, tz, intl, nowIso).timePart
  {
  }
}
