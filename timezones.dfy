/**
 * The country-code lookup of the `get_time` handler in main.py: the code is
 * upper-cased, looked up in a fixed table, and a 12- or 24-hour pattern is
 * chosen. The wall clock and its formatting are a parameter.
 */
module TimeZones {
  import opened Wrappers

  /** The supported ISO country codes and their timezone names. */
  const CountryTimezones: map<string, string> := map[
    "CO" := "America/Bogota",
    "MX" := "America/Mexico_City",
    "AR" := "America/Argentina/Buenos_Aires",
    "BR" := "America/Sao_Paulo",
    "PE" := "America/Lima"
  ]

  /** No character of `s` is a lower-case ASCII letter. */
  predicate HasNoLowercase(s: string)
  {
    forall i :: 0 <= i < |s| ==> !('a' <= s[i] <= 'z')
  }

  /** Upper-cases one character; letters outside 'a'..'z' are kept. */
  function UpperChar(c: char): (r: char)
  {
    if 'a' <= c <= 'z' then (c as int - 32) as char else c
  }

  /** Lower-cases one character; used only to state case-insensitivity. */
  function LowerChar(c: char): (r: char)
  {
    if 'A' <= c <= 'Z' then (c as int + 32) as char else c
  }

  /**
   * Upper-cases a string character by character: the result has no
   * lower-case letter and is the input up to case.
   */
  function Upper(s: string): (r: string)
    ensures |r| == |s| && HasNoLowercase(r)
    ensures forall i :: 0 <= i < |s| ==> LowerChar(r[i]) == LowerChar(s[i])
    ensures HasNoLowercase(s) ==> r == s
  {
    seq(|s|, i requires 0 <= i < |s| => UpperChar(s[i]))
  }

  /** Lower-cases a string; used only to state case-insensitivity. */
  function Lower(s: string): (r: string)
  {
    seq(|s|, i requires 0 <= i < |s| => LowerChar(s[i]))
  }

  /** The ways `get_time` fails, each with its HTTP status and message. */
  datatype TimeError = InvalidIsoCode | ZoneNotFound
  {
    function Status(): (code: int)
    {
      match this
      case InvalidIsoCode => 400
      case ZoneNotFound => 500
    }

    function Detail(): (message: string)
    {
      match this
      case InvalidIsoCode => "Código ISO no válido"
      case ZoneNotFound => "Zona horaria no encontrada"
    }
  }

  /** The successful reply: formatted time, normalised code and timezone name. */
  datatype TimeReply = TimeReply(time: string, isoCode: string, timezone: string)

  /**
   * The strftime pattern: an hour directive (`%I`, 12-hour, or `%H`,
   * 24-hour), then ":" and the minutes `%M`, then the AM/PM marker `%p`
   * exactly in the 12-hour form.
   */
  function TimeFormat(format12hr: bool): (pattern: string)
    ensures |pattern| >= 5 && pattern[2..5] == ":%M"
    ensures pattern[..2] == (if format12hr then "%I" else "%H")
    ensures format12hr <==> pattern[5..] == " %p"
    ensures !format12hr <==> pattern[5..] == ""
  {
    if format12hr then "%I:%M %p" else "%H:%M"
  }

  /**
   * The `get_time` handler. `zones` is the set of timezone names the
   * timezone database knows; `render(zone, pattern)` stands for reading
   * the current time in `zone` and formatting it with `pattern`. A reply
   * carries an upper-case supported code and that code's timezone, and
   * with a database that knows the five names no 500 reply happens.
   */
  function GetTime(isoCode: string, format12hr: bool, zones: set<string>,
                   render: (string, string) -> string): (r: Result<TimeReply, TimeError>)
    ensures r.Ok? ==> r.value.isoCode == Upper(isoCode) && HasNoLowercase(r.value.isoCode)
    ensures r.Ok? ==> r.value.isoCode in {"CO", "MX", "AR", "BR", "PE"}
    ensures r.Ok? ==> r.value.timezone == CountryTimezones[r.value.isoCode]
    ensures r.Ok? ==> r.value.time == render(r.value.timezone, TimeFormat(format12hr))
    ensures r == Err(InvalidIsoCode) <==> Upper(isoCode) !in CountryTimezones
    ensures r == Err(ZoneNotFound) <==>
              Upper(isoCode) in CountryTimezones && CountryTimezones[Upper(isoCode)] !in zones
    ensures r.Ok? ==> r.value.timezone in zones
    ensures CountryTimezones.Values <= zones ==> r != Err(ZoneNotFound)
  {
    var iso := Upper(isoCode);
    if iso !in CountryTimezones then Err(InvalidIsoCode)
    else
      var zone := CountryTimezones[iso];
      if zone !in zones then Err(ZoneNotFound)
      else Ok(TimeReply(render(zone, TimeFormat(format12hr)), iso, zone))
  }

  /** Upper-casing twice is upper-casing once. */
  lemma UpperIdempotent(s: string)
    ensures Upper(Upper(s)) == Upper(s)
  {
  }

  /** Every key of the table is already upper-case, so upper-casing leaves it unchanged. */
  lemma TableKeysAreUpper(k: string)
    requires k in CountryTimezones
    ensures HasNoLowercase(k) && Upper(k) == k
  {
  }

  /** The lookup is case-insensitive: codes equal up to case give the same reply. */
  lemma GetTimeCaseInsensitive(s: string, t: string, format12hr: bool, zones: set<string>,
                               render: (string, string) -> string)
    requires Upper(s) == Upper(t)
    ensures GetTime(s, format12hr, zones, render) == GetTime(t, format12hr, zones, render)
  {
  }

  /** Looking up a code gives what looking up its upper- or lower-cased form gives. */
  lemma GetTimeIgnoresCase(s: string, format12hr: bool, zones: set<string>,
                           render: (string, string) -> string)
    ensures GetTime(Upper(s), format12hr, zones, render) == GetTime(s, format12hr, zones, render)
    ensures GetTime(Lower(s), format12hr, zones, render) == GetTime(s, format12hr, zones, render)
  {
    UpperIdempotent(s);
    assert Upper(Lower(s)) == Upper(s) by {
      assert forall i :: 0 <= i < |s| ==> UpperChar(LowerChar(s[i])) == UpperChar(s[i]);
    }
  }

  /** A code whose upper-cased form is not in the table is a 400 "invalid ISO code". */
  lemma GetTimeUnknownCode(s: string, format12hr: bool, zones: set<string>,
                           render: (string, string) -> string)
    requires Upper(s) !in CountryTimezones
    ensures GetTime(s, format12hr, zones, render) == Err(InvalidIsoCode)
    ensures InvalidIsoCode.Status() == 400 && InvalidIsoCode.Detail() == "Código ISO no válido"
  {
  }

  /**
   * The lookup fails with a 400 exactly when the upper-cased code is not
   * in the table, and with a 500 exactly when it is but the timezone
   * database does not know its zone.
   */
  lemma GetTimeErrorStatus(s: string, format12hr: bool, zones: set<string>,
                           render: (string, string) -> string)
    ensures var r := GetTime(s, format12hr, zones, render);
            (r.Err? && r.error.Status() == 400 <==> Upper(s) !in CountryTimezones) &&
            (r.Err? && r.error.Status() == 500 <==>
               (Upper(s) in CountryTimezones && CountryTimezones[Upper(s)] !in zones))
  {
  }

  /**
   * A supported code answers with exactly its mapped timezone, the
   * upper-cased code, and the time rendered in the chosen pattern; the
   * reply is an error exactly when the code is unsupported.
   */
  lemma GetTimeKnownCode(s: string, format12hr: bool, zones: set<string>,
                         render: (string, string) -> string)
    requires CountryTimezones.Values <= zones
    ensures GetTime(s, format12hr, zones, render).Err? <==> Upper(s) !in CountryTimezones
    ensures Upper(s) in CountryTimezones ==>
              var zone := CountryTimezones[Upper(s)];
              GetTime(s, format12hr, zones, render)
                == Ok(TimeReply(render(zone, TimeFormat(format12hr)), Upper(s), zone))
  {
    if Upper(s) in CountryTimezones {
      assert CountryTimezones[Upper(s)] in CountryTimezones.Values;
    }
  }

  /** Concrete cases: "co" and "CO" agree on "America/Bogota"; "ZZ" is rejected. */
  lemma ExampleLookups(format12hr: bool, zones: set<string>, render: (string, string) -> string)
    requires "America/Bogota" in zones
    ensures GetTime("co", format12hr, zones, render) == GetTime("CO", format12hr, zones, render)
    ensures GetTime("CO", format12hr, zones, render).Ok?
    ensures GetTime("CO", format12hr, zones, render).value.timezone == "America/Bogota"
    ensures GetTime("ZZ", format12hr, zones, render) == Err(InvalidIsoCode)
  {
    assert Upper("co") == "CO";
    assert Upper("CO") == "CO";
    assert Upper("ZZ") == "ZZ";
  }
}
