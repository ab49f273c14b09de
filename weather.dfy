/** The text handling of the weather enrichment: recognising
    "weather in|at <place>" in a user transcript (the regular expression
    `/weather (?:in|at) ([A-Za-z\s]+)/i` followed by `trim()`), and the
    system message built from a lookup result. */
module Weather {
  import opened Wire

  /** JavaScript's white space and line terminators: exactly the characters
      the regular-expression class `\s` matches and `trim()` removes. */
  predicate IsJsSpace(c: char) {
    c == '\t' || c == '\n' || c == '\U{000B}' || c == '\U{000C}' || c == '\r' || c == ' '
    || c == '\U{00A0}' || c == '\U{1680}' || ('\U{2000}' <= c <= '\U{200A}')
    || c == '\U{2028}' || c == '\U{2029}' || c == '\U{202F}' || c == '\U{205F}'
    || c == '\U{3000}' || c == '\U{FEFF}'
  }

  predicate IsAsciiLetter(c: char) {
    'A' <= c <= 'Z' || 'a' <= c <= 'z'
  }

  /** The class `[A-Za-z\s]` under the case-insensitive flag; outside the
      unicode flag case folding never maps a non-ASCII character to an ASCII
      letter, so the class is unchanged by it. */
  predicate IsPlaceChar(c: char) {
    IsAsciiLetter(c) || IsJsSpace(c)
  }

  function LowerAscii(c: char): char {
    if 'A' <= c <= 'Z' then (c as int + 32) as char else c
  }

  /** The character at `i` is `lower` up to ASCII case. */
  predicate FoldedIs(t: string, i: nat, lower: char)
    requires i < |t|
  {
    LowerAscii(t[i]) == lower
  }

  /** The pattern matches at index `i`: "weather " in any case, then "in" or
      "at" in any case, then a space, then at least one place character,
      which starts at `i + 11`. */
  predicate MatchAt(t: string, i: nat) {
    i + 11 < |t|
    && FoldedIs(t, i, 'w') && FoldedIs(t, i + 1, 'e') && FoldedIs(t, i + 2, 'a')
    && FoldedIs(t, i + 3, 't') && FoldedIs(t, i + 4, 'h') && FoldedIs(t, i + 5, 'e')
    && FoldedIs(t, i + 6, 'r') && t[i + 7] == ' '
    && ((FoldedIs(t, i + 8, 'i') && FoldedIs(t, i + 9, 'n'))
        || (FoldedIs(t, i + 8, 'a') && FoldedIs(t, i + 9, 't')))
    && t[i + 10] == ' '
    && IsPlaceChar(t[i + 11])
  }

  /** `i` is where the regular expression's search finds its match. */
  predicate LeftmostMatch(t: string, i: nat) {
    MatchAt(t, i) && forall k :: 0 <= k < i ==> !MatchAt(t, k)
  }

  /** The greedy group `([A-Za-z\s]+)`: the longest run of place characters
      starting at `j`. */
  function PlaceRun(t: string, j: nat): (r: string)
    requires j <= |t|
    ensures j + |r| <= |t| && r == t[j..j + |r|]
    ensures forall k :: 0 <= k < |r| ==> IsPlaceChar(r[k])
    ensures j + |r| < |t| ==> !IsPlaceChar(t[j + |r|])
    decreases |t| - j
  {
    if j < |t| && IsPlaceChar(t[j]) then [t[j]] + PlaceRun(t, j + 1) else []
  }

  /** The search for the first index at or after `from` where the pattern
      matches. */
  function FirstMatch(t: string, from: nat): (r: Option<nat>)
    ensures r.Some? ==> from <= r.value && MatchAt(t, r.value)
    ensures r.Some? ==> forall k :: from <= k < r.value ==> !MatchAt(t, k)
    ensures r.None? ==> forall k :: from <= k ==> !MatchAt(t, k)
    decreases |t| - from
  {
    if |t| <= from + 11 then None
    else if MatchAt(t, from) then Some(from)
    else FirstMatch(t, from + 1)
  }

  function TrimStart(s: string): (r: string)
    ensures |r| <= |s| && r == s[|s| - |r|..]
    ensures forall k :: 0 <= k < |s| - |r| ==> IsJsSpace(s[k])
    ensures r != [] ==> !IsJsSpace(r[0])
  {
    if s != [] && IsJsSpace(s[0]) then TrimStart(s[1..]) else s
  }

  function TrimEnd(s: string): (r: string)
    ensures |r| <= |s| && r == s[..|r|]
    ensures forall k :: |r| <= k < |s| ==> IsJsSpace(s[k])
    ensures r != [] ==> !IsJsSpace(r[|r| - 1])
  {
    if s != [] && IsJsSpace(s[|s| - 1]) then TrimEnd(s[..|s| - 1]) else s
  }

  /** `r` is `s` with the `a` characters before it and all characters after
      it being white space. */
  predicate TrimmedAt(s: string, r: string, a: nat) {
    a + |r| <= |s| && s[a..a + |r|] == r
    && (forall k :: 0 <= k < a ==> IsJsSpace(s[k]))
    && (forall k :: a + |r| <= k < |s| ==> IsJsSpace(s[k]))
  }

  /** `String.prototype.trim`. */
  function Trim(s: string): (r: string)
    ensures exists a :: TrimmedAt(s, r, a)
    ensures r != [] ==> !IsJsSpace(r[0]) && !IsJsSpace(r[|r| - 1])
  {
    var h := TrimStart(s);
    var r := TrimEnd(h);
    TrimParts(s, h, r);
    r
  }

  /** Cutting white space from the front and then from the back cuts it
      from both ends. */
  lemma TrimParts(s: string, h: string, r: string)
    requires |h| <= |s| && h == s[|s| - |h|..]
    requires forall k :: 0 <= k < |s| - |h| ==> IsJsSpace(s[k])
    requires |r| <= |h| && r == h[..|r|]
    requires forall k :: |r| <= k < |h| ==> IsJsSpace(h[k])
    ensures TrimmedAt(s, r, |s| - |h|)
  {
    var a := |s| - |h|;
    assert s[a..a + |r|] == r by {
      assert s[a..][..|r|] == r;
    }
    forall k | a + |r| <= k < |s|
      ensures IsJsSpace(s[k])
    {
      assert s[k] == h[k - a];
    }
  }

  lemma TrimKeepsTrimmed(s: string)
    requires s != [] ==> !IsJsSpace(s[0]) && !IsJsSpace(s[|s| - 1])
    ensures Trim(s) == s
  {
  }

  /** `c` is the trimmed capture of the leftmost match in `t`. */
  predicate NamesPlace(t: string, c: string) {
    exists i: nat :: i < |t| && LeftmostMatch(t, i) && c == Trim(PlaceRun(t, i + 11))
  }

  /** `handlePotentialWeatherQuery`'s match: the place named after the
      leftmost "weather in|at ", trimmed, or nothing when the pattern does
      not occur (see `WeatherCityMeans`). */
  function WeatherCity(t: string): Option<string> {
    match FirstMatch(t, 0)
    case None => None
    case Some(i) => Some(Trim(PlaceRun(t, i + 11)))
  }

  /** A place is recognised exactly when the pattern occurs somewhere, and
      it is the trimmed capture of the leftmost occurrence. */
  lemma WeatherCityMeans(t: string)
    ensures WeatherCity(t).None? <==> forall i :: !MatchAt(t, i)
    ensures WeatherCity(t).Some? ==> NamesPlace(t, WeatherCity(t).value)
  {
    match FirstMatch(t, 0)
    case None =>
    case Some(i) =>
      assert LeftmostMatch(t, i);
  }

  lemma TrimmedPlace(run: string)
    requires forall k :: 0 <= k < |run| ==> IsPlaceChar(run[k])
    ensures var c := Trim(run);
      (forall k :: 0 <= k < |c| ==> IsPlaceChar(c[k]))
      && (c != [] ==> IsAsciiLetter(c[0]) && IsAsciiLetter(c[|c| - 1]))
  {
    var c := Trim(run);
    var a: nat :| TrimmedAt(run, c, a);
    forall k | 0 <= k < |c| ensures IsPlaceChar(c[k]) {
      assert c[k] == run[a + k];
    }
  }

  /** A recognised place consists only of ASCII letters and white space and
      neither starts nor ends with white space. */
  lemma WeatherCityShape(t: string)
    requires WeatherCity(t).Some?
    ensures var c := WeatherCity(t).value;
      (forall k :: 0 <= k < |c| ==> IsPlaceChar(c[k]))
      && (c != [] ==> IsAsciiLetter(c[0]) && IsAsciiLetter(c[|c| - 1]))
  {
    var m := FirstMatch(t, 0);
    assert m.Some? && m.value + 11 < |t|;
    var run := PlaceRun(t, m.value + 11);
    assert WeatherCity(t).value == Trim(run);
    TrimmedPlace(run);
  }

  /** A transcript whose first match is at `i` names the place the greedy
      group captures there, when that run has no white space at its ends. */
  lemma RecognisedAt(t: string, i: nat, c: string)
    requires FirstMatch(t, 0) == Some(i) && i + 11 <= |t| && PlaceRun(t, i + 11) == c
    requires c != [] ==> !IsJsSpace(c[0]) && !IsJsSpace(c[|c| - 1])
    ensures WeatherCity(t) == Some(c)
  {
    TrimKeepsTrimmed(c);
  }

  /** The search moves past indices where the pattern does not start. */
  lemma {:induction false} SkipTo(t: string, k: nat, n: nat)
    requires k <= n && forall j :: k <= j < n ==> !MatchAt(t, j)
    ensures FirstMatch(t, k) == FirstMatch(t, n)
    decreases n - k
  {
    if k < n {
      SkipTo(t, k + 1, n);
    }
  }

  /** Whether the pattern starts at an index depends only on the text from
      there on: text in front of a transcript shifts its matches. */
  lemma MatchShift(p: string, u: string, k: nat)
    ensures MatchAt(p + u, |p| + k) == MatchAt(u, k)
  {
  }

  lemma {:induction false} FirstMatchShift(p: string, u: string, from: nat)
    ensures FirstMatch(p + u, |p| + from)
      == (match FirstMatch(u, from) case None => None case Some(i) => Some(|p| + i))
    decreases |u| - from
  {
    MatchShift(p, u, from);
    if from + 11 < |u| && !MatchAt(u, from) {
      FirstMatchShift(p, u, from + 1);
    }
  }

  lemma {:induction false} PlaceRunShift(p: string, u: string, j: nat)
    requires j <= |u|
    ensures PlaceRun(p + u, |p| + j) == PlaceRun(u, j)
    decreases |u| - j
  {
    if j < |u| {
      assert (p + u)[|p| + j] == u[j];
      PlaceRunShift(p, u, j + 1);
    }
  }

  /** Eleven characters in which the pattern cannot start: no `w` after the
      first, and no `e` second. */
  lemma PrefixNoMatch(p: string, u: string)
    requires |p| == 11 && LowerAscii(p[1]) != 'e'
    requires forall k :: 1 <= k < 11 ==> LowerAscii(p[k]) != 'w'
    ensures forall k :: 0 <= k < 11 ==> !MatchAt(p + u, k)
  {
    forall k | 0 <= k < 11 ensures !MatchAt(p + u, k) {
      assert (p + u)[k] == p[k] && (p + u)[1] == p[1];
    }
  }

  /** Such a prefix does not change the place recognised in what follows. */
  lemma PrefixedPlace(p: string, u: string, c: string)
    requires |p| == 11 && LowerAscii(p[1]) != 'e'
    requires forall k :: 1 <= k < 11 ==> LowerAscii(p[k]) != 'w'
    requires FirstMatch(u, 0) == Some(0) && 11 <= |u| && PlaceRun(u, 11) == c
    requires c != [] ==> !IsJsSpace(c[0]) && !IsJsSpace(c[|c| - 1])
    ensures WeatherCity(p + u) == Some(c)
  {
    var t := p + u;
    PrefixNoMatch(p, u);
    SkipTo(t, 0, 11);
    FirstMatchShift(p, u, 0);
    PlaceRunShift(p, u, 11);
    RecognisedAt(t, 11, c);
  }

  /* The three lemmas below take their string as a parameter fixed by
     `requires` rather than writing the literal into the ensures: the
     solver then unfolds the literal once, inside a small lemma, instead of
     at every use of the fact. */

  /** No match can start inside "What's the ": only its first character is
      a `w`, and it is not followed by `e`. */
  lemma WhatsThe(p: string)
    requires p == "What's the "
    ensures |p| == 11 && LowerAscii(p[1]) != 'e'
    ensures forall k :: 1 <= k < 11 ==> LowerAscii(p[k]) != 'w'
  {
    assert p[1] == 'h' && p[2] == 'a' && p[3] == 't' && p[4] == '\'' && p[5] == 's';
    assert p[6] == ' ' && p[7] == 't' && p[8] == 'h' && p[9] == 'e' && p[10] == ' ';
  }

  /** "weather in Boston?" matches the pattern at its first character. */
  lemma WeatherInBostonMatchesAt0(t: string)
    requires t == "weather in Boston?"
    ensures FirstMatch(t, 0) == Some(0)
  {
    assert MatchAt(t, 0);
  }

  /** The greedy group after "weather in " stops at the question mark. */
  lemma BostonPlaceRun(t: string)
    requires t == "weather in Boston?"
    ensures PlaceRun(t, 11) == "Boston"
  {
    assert PlaceRun(t, 17) == [];
    assert PlaceRun(t, 16) == "n";
    assert PlaceRun(t, 15) == "on";
    assert PlaceRun(t, 14) == "ton";
    assert PlaceRun(t, 13) == "ston";
    assert PlaceRun(t, 12) == "oston";
  }

  /** The transcript "What's the weather in Boston?", given as its two
      halves, launches the lookup for "Boston": the question mark ends the
      greedy group. */
  lemma BostonIsRecognised(p: string, u: string)
    requires p == "What's the " && u == "weather in Boston?"
    ensures WeatherCity(p + u) == Some("Boston")
  {
    WhatsThe(p);
    WeatherInBostonMatchesAt0(u);
    BostonPlaceRun(u);
    PrefixedPlace(p, u, "Boston");
  }

  /** The result of the two-step lookup, as `formatWeatherMessage` inspects
      it: an `error` string, a response without `current_weather`, or the
      four fields of `current_weather` in their printed form. */
  datatype WeatherData =
    | Failed(error: string)
    | NoCurrent
    | Current(temperature: string, windspeed: string, weathercode: string, time: string)

  const DATA_FOOTER := "(Use this info if the user asked about it.)"

  function DataHeader(city: string): string {
    "Open-Meteo weather data for " + city + ":\n"
  }

  predicate EndsWith(s: string, suffix: string) {
    |suffix| <= |s| && s[|s| - |suffix|..] == suffix
  }

  /** `formatWeatherMessage`. An empty error string is falsy in the source,
      so it is reported like a response without current conditions. */
  function FormatWeatherMessage(data: WeatherData, city: string): (r: string)
    ensures data.Failed? && data.error != [] ==> r == "Weather data error: " + data.error
    ensures data.NoCurrent? || data == Failed([]) ==> r == "No current weather data found for " + city + "."
    ensures data.Current? ==> DataHeader(city) <= r && EndsWith(r, DATA_FOOTER)
  {
    match data
    case Failed(e) =>
      if e != [] then "Weather data error: " + e
      else "No current weather data found for " + city + "."
    case NoCurrent => "No current weather data found for " + city + "."
    case Current(t, w, c, tm) =>
      DataHeader(city)
      + ("- Temperature: " + t + " °C\n")
      + ("- Wind Speed: " + w + " km/h\n")
      + ("- Weather Code: " + c + "\n")
      + ("- Time: " + tm + "\n")
      + DATA_FOOTER
  }

  predicate OccursAt(s: string, sub: string, i: nat) {
    i + |sub| <= |s| && s[i..i + |sub|] == sub
  }

  predicate Contains(s: string, sub: string) {
    exists i :: 0 <= i <= |s| && OccursAt(s, sub, i)
  }

  /** Where each of six concatenated parts sits in the whole. */
  lemma PartsOccur(p0: string, p1: string, p2: string, p3: string, p4: string, p5: string)
    ensures var s := p0 + p1 + p2 + p3 + p4 + p5;
      OccursAt(s, p0, 0)
      && OccursAt(s, p1, |p0|)
      && OccursAt(s, p2, |p0| + |p1|)
      && OccursAt(s, p3, |p0| + |p1| + |p2|)
      && OccursAt(s, p4, |p0| + |p1| + |p2| + |p3|)
  {
    var s := p0 + p1 + p2 + p3 + p4 + p5;
    assert s[..|p0|] == p0;
    assert s[|p0|..|p0| + |p1|] == p1;
    assert s[|p0| + |p1|..|p0| + |p1| + |p2|] == p2;
    assert s[|p0| + |p1| + |p2|..|p0| + |p1| + |p2| + |p3|] == p3;
    assert s[|p0| + |p1| + |p2| + |p3|..|p0| + |p1| + |p2| + |p3| + |p4|] == p4;
  }

  lemma OccursWithin(s: string, x: string, y: string, i: nat, j: nat)
    requires OccursAt(s, x, i) && OccursAt(x, y, j)
    ensures OccursAt(s, y, i + j)
  {
    forall k | 0 <= k < |y| ensures s[i + j + k] == y[k] {
      assert s[i..i + |x|][j + k] == x[j + k];
      assert x[j..j + |y|][k] == x[j + k];
    }
    assert s[i + j..i + j + |y|] == y;
  }

  /** A message built from current conditions names the city and carries
      each of the four values on its own labelled line. */
  lemma CurrentMessageCarriesValues(city: string, t: string, w: string, c: string, tm: string)
    ensures var m := FormatWeatherMessage(Current(t, w, c, tm), city);
      Contains(m, city)
      && Contains(m, "- Temperature: " + t + " °C\n")
      && Contains(m, "- Wind Speed: " + w + " km/h\n")
      && Contains(m, "- Weather Code: " + c + "\n")
      && Contains(m, "- Time: " + tm + "\n")
  {
    var h := DataHeader(city);
    var m := FormatWeatherMessage(Current(t, w, c, tm), city);
    PartsOccur(h, "- Temperature: " + t + " °C\n", "- Wind Speed: " + w + " km/h\n",
               "- Weather Code: " + c + "\n", "- Time: " + tm + "\n", DATA_FOOTER);
    PartsOccur("Open-Meteo weather data for ", city, ":\n", [], [], []);
    assert "Open-Meteo weather data for " + city + ":\n" + [] + [] + [] == h;
    OccursWithin(m, h, city, 0, 28);
  }
}
