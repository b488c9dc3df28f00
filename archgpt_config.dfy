/**
 * The plugin configuration: the loaded settings that the rest of the core reads,
 * the parsers that loading applies (memory duration, listener priority,
 * compiled knowledge), the per-NPC prompt lookup and the debug-mode toggle.
 */
module ArchGptConfig {
  import opened Wrappers
  import opened JavaStrings

  /**
   * The values loadConfig keeps (null where the configuration may say null), plus
   * the compile-time cap on stored history, ArchGPTConstants.MAX_CONVERSATION_STATE_SIZE.
   */
  datatype Settings = Settings(
    defaultPrompt: Option<string>,
    chatGptEngine: string,
    apiKey: Option<string>,
    minCharLength: int,
    maxResponseLength: int,
    chatCooldownMillis: int,
    useMcp: bool,
    mcpServerUrl: string,
    mcpProvider: string,
    mcpModel: string,
    mcpMaxTokens: int,
    maxConversationStateSize: nat)

  /** The entries of the configuration file that are looked up at the time of use. */
  datatype ConfigFile = ConfigFile(
    defaultPromptEntry: Option<string>,       // default_prompt
    npcPrompts: map<string, string>,          // npcs.<name>
    endPhrase: Option<string>)                // conversation_end_phrase

  // ---------------------------------------------------------------------------
  // parseMinecraftDuration: (?:(\d+)w)?\s*(?:(\d+)d)?\s*(?:(\d+)h)?\s*(?:(\d+)m)?

  /** The class \s of java.util.regex: space, \t, \n, \x0B, \f and \r. */
  predicate IsRegexSpace(c: char) {
    c == ' ' || ('\t' <= c <= '\r')
  }

  predicate IsSpaces(s: string) {
    forall i :: 0 <= i < |s| ==> IsRegexSpace(s[i])
  }

  function LeadingDigits(s: string): (n: nat)
    ensures n <= |s|
    ensures forall i :: 0 <= i < n ==> IsDigit(s[i])
    ensures n < |s| ==> !IsDigit(s[n])
  {
    if s != [] && IsDigit(s[0]) then 1 + LeadingDigits(s[1..]) else 0
  }

  function LeadingSpaces(s: string): (n: nat)
    ensures n <= |s|
    ensures forall i :: 0 <= i < n ==> IsRegexSpace(s[i])
    ensures n < |s| ==> !IsRegexSpace(s[n])
  {
    if s != [] && IsRegexSpace(s[0]) then 1 + LeadingSpaces(s[1..]) else 0
  }

  /** The optional group (\d+)unit at the start of s, and what follows it. */
  function TakeGroup(s: string, unit: char): (r: (Option<string>, string))
    ensures r.0.None? ==> r.1 == s
    ensures r.0.Some? ==> IsDigits(r.0.value) && s == r.0.value + [unit] + r.1
  {
    var n := LeadingDigits(s);
    if 0 < n < |s| && s[n] == unit then (Some(s[..n]), s[n + 1..]) else (None, s)
  }

  /** The whitespace run \s* at the start of s, and what follows it. */
  function TakeSpaces(s: string): (r: (string, string))
    ensures IsSpaces(r.0) && s == r.0 + r.1
    ensures r.1 == [] || !IsRegexSpace(r.1[0])
  {
    var n := LeadingSpaces(s);
    (s[..n], s[n..])
  }

  /** The pieces of a matched duration: four optional digit groups and the whitespace between them. */
  datatype DurationParts = DurationParts(
    weeks: Option<string>, gap1: string,
    days: Option<string>, gap2: string,
    hours: Option<string>, gap3: string,
    minutes: Option<string>)

  predicate GroupOk(g: Option<string>) {
    g.Some? ==> IsDigits(g.value)
  }

  predicate HoursOk(p: DurationParts) {
    GroupOk(p.hours) && IsSpaces(p.gap3) && GroupOk(p.minutes)
  }

  predicate DaysOk(p: DurationParts) {
    GroupOk(p.days) && IsSpaces(p.gap2) && HoursOk(p)
  }

  predicate WellFormed(p: DurationParts) {
    GroupOk(p.weeks) && IsSpaces(p.gap1) && DaysOk(p)
  }

  function Group(g: Option<string>, unit: char): string {
    if g.Some? then g.value + [unit] else ""
  }

  /** The text from the hours group on. */
  function RenderHours(p: DurationParts): string {
    Group(p.hours, 'h') + (p.gap3 + Group(p.minutes, 'm'))
  }

  /** The text from the days group on. */
  function RenderDays(p: DurationParts): string {
    Group(p.days, 'd') + (p.gap2 + RenderHours(p))
  }

  /** The text a duration's pieces spell, in the order w, d, h, m. */
  function Render(p: DurationParts): string {
    Group(p.weeks, 'w') + (p.gap1 + RenderDays(p))
  }

  /** The pattern from the hours group on; the fields before it are left empty. */
  function MatchHours(s: string): (r: Option<DurationParts>)
    ensures r.Some? ==> HoursOk(r.value) && RenderHours(r.value) == s
  {
    var th := TakeGroup(s, 'h');
    var t3 := TakeSpaces(th.1);
    var tm := TakeGroup(t3.1, 'm');
    if tm.1 == [] then
      assert Group(tm.0, 'm') == t3.1;
      Some(DurationParts(None, "", None, "", th.0, t3.0, tm.0))
    else
      None
  }

  /** The pattern from the days group on; the weeks fields are left empty. */
  function MatchDays(s: string): (r: Option<DurationParts>)
    ensures r.Some? ==> DaysOk(r.value) && RenderDays(r.value) == s
  {
    var td := TakeGroup(s, 'd');
    var t2 := TakeSpaces(td.1);
    match MatchHours(t2.1)
    case None => None
    case Some(q) => Some(q.(days := td.0, gap2 := t2.0))
  }

  /** Matcher.matches() for the duration pattern: the whole string must be consumed. */
  function MatchDuration(s: string): (r: Option<DurationParts>)
    ensures r.Some? ==> WellFormed(r.value) && Render(r.value) == s
  {
    var tw := TakeGroup(s, 'w');
    var t1 := TakeSpaces(tw.1);
    match MatchDays(t1.1)
    case None => None
    case Some(q) => Some(q.(weeks := tw.0, gap1 := t1.0))
  }

  const LONG_MIN: int := -0x8000_0000_0000_0000
  const LONG_MAX: int := 0x7FFF_FFFF_FFFF_FFFF

  predicate InLong(x: int) {
    LONG_MIN <= x <= LONG_MAX
  }

  /** A product computed in Java's 64-bit long arithmetic, which wraps around. */
  function WrapLong(x: int): (r: int)
    ensures InLong(r)
    ensures (r - x) % 0x1_0000_0000_0000_0000 == 0
  {
    var y := x - LONG_MIN;
    var r := y % 0x1_0000_0000_0000_0000 + LONG_MIN;
    assert r - x == -(y / 0x1_0000_0000_0000_0000) * 0x1_0000_0000_0000_0000;
    r
  }

  /**
   * Why parsing fails: the text does not have the shape (IllegalArgumentException),
   * a group exceeds a long (NumberFormatException, also an IllegalArgumentException),
   * or the Duration arithmetic overflows (ArithmeticException).
   */
  datatype DurationError = InvalidFormat | NumberOutOfRange | ArithmeticOverflow

  function GroupValue(g: Option<string>): nat
    requires GroupOk(g)
  {
    if g.Some? then DigitsValue(g.value) else 0
  }

  /**
   * The duration of m minutes, plus h hours, plus d times 20 minutes, plus w times
   * 7 times 20 minutes, in minutes: the two products are long arithmetic, which
   * wraps, and every Duration step is checked for overflow.
   */
  function DurationMinutes(w: int, d: int, h: int, m: int): (r: Result<int, DurationError>)
    ensures r.Err? ==> r.error == ArithmeticOverflow
  {
    var s0 := m * 60;
    var hs := h * 3600;
    var s1 := s0 + hs;
    var ds := WrapLong(d * 20) * 60;
    var s2 := s1 + ds;
    var ws := WrapLong(WrapLong(w * 7) * 20) * 60;
    var s3 := s2 + ws;
    if !InLong(s0) || !InLong(hs) || !InLong(s1) || !InLong(ds) || !InLong(s2) || !InLong(ws) || !InLong(s3) then
      Err(ArithmeticOverflow)
    else
      Ok(s3 / 60)
  }

  /** The duration that a matched text denotes, after Long.parseLong of each group. */
  function DurationOf(weeks: Option<string>, days: Option<string>, hours: Option<string>, minutes: Option<string>): (r: Result<int, DurationError>)
    requires GroupOk(weeks) && GroupOk(days) && GroupOk(hours) && GroupOk(minutes)
    ensures r != Err(InvalidFormat)
    ensures r == Err(NumberOutOfRange) <==>
      GroupValue(weeks) > LONG_MAX || GroupValue(days) > LONG_MAX || GroupValue(hours) > LONG_MAX || GroupValue(minutes) > LONG_MAX
  {
    var w, d, h, m := GroupValue(weeks), GroupValue(days), GroupValue(hours), GroupValue(minutes);
    if w > LONG_MAX || d > LONG_MAX || h > LONG_MAX || m > LONG_MAX then Err(NumberOutOfRange)
    else DurationMinutes(w, d, h, m)
  }

  /** parseMinecraftDuration: the configured memory duration, in minutes. */
  function ParseMinecraftDuration(s: string): (r: Result<int, DurationError>)
    ensures r != Err(InvalidFormat) <==> MatchDuration(s).Some?
  {
    match MatchDuration(s)
    case None => Err(InvalidFormat)
    case Some(p) => DurationOf(p.weeks, p.days, p.hours, p.minutes)
  }

  /** Moves the whitespace after an absent hours group onto the gap before it. */
  function ShiftHoursGap(p: DurationParts): DurationParts {
    if p.hours.None? then p.(gap2 := p.gap2 + p.gap3, gap3 := "") else p
  }

  /** Moves the whitespace after an absent days group onto the gap before it. */
  function ShiftDaysGap(p: DurationParts): DurationParts {
    if p.days.None? then p.(gap1 := p.gap1 + p.gap2, gap2 := "") else p
  }

  /** The pieces as the matcher finds them: the whitespace after an absent group joins the gap before it. */
  function Normalize(p: DurationParts): DurationParts {
    ShiftDaysGap(ShiftHoursGap(p))
  }

  /** A normalized duration: no whitespace directly after an absent group. */
  predicate GapsNormalized(p: DurationParts) {
    (p.days.None? ==> p.gap2 == "") && (p.hours.None? ==> p.gap3 == "")
  }

  lemma {:induction false} LeadingDigitsOfGroup(g: string, c: char, rest: string)
    requires IsDigits(g) && !IsDigit(c)
    ensures LeadingDigits(g + [c] + rest) == |g|
  {
    if |g| > 1 {
      var tail := g[1..];
      assert (g + [c] + rest)[1..] == tail + [c] + rest;
      LeadingDigitsOfGroup(tail, c, rest);
    }
  }

  lemma {:induction false} LeadingSpacesOfGap(g: string, rest: string)
    requires IsSpaces(g)
    requires rest == [] || !IsRegexSpace(rest[0])
    ensures LeadingSpaces(g + rest) == |g|
  {
    if g != [] {
      assert (g + rest)[1..] == g[1..] + rest;
      LeadingSpacesOfGap(g[1..], rest);
    }
  }

  /** A group written with its own unit is taken whole. */
  lemma TakeOwnGroup(g: Option<string>, unit: char, rest: string)
    requires GroupOk(g) && g.Some? && !IsDigit(unit)
    ensures TakeGroup(Group(g, unit) + rest, unit) == (g, rest)
  {
    var s := Group(g, unit) + rest;
    assert s == g.value + [unit] + rest;
    LeadingDigitsOfGroup(g.value, unit, rest);
    assert s[..|g.value|] == g.value;
    assert s[|g.value| + 1..] == rest;
  }

  /** A group for another unit, or text that does not start with a digit, is not taken. */
  lemma TakeNoGroup(s: string, unit: char, other: Option<string>, otherUnit: char, rest: string)
    requires GroupOk(other) && !IsDigit(otherUnit) && otherUnit != unit
    requires s == [] || !IsDigit(s[0]) || (other.Some? && s == Group(other, otherUnit) + rest)
    ensures TakeGroup(s, unit) == (None, s)
  {
    if s != [] && IsDigit(s[0]) {
      assert s == other.value + [otherUnit] + rest;
      LeadingDigitsOfGroup(other.value, otherUnit, rest);
    }
  }

  lemma TakeGap(g: string, rest: string)
    requires IsSpaces(g)
    requires rest == [] || !IsRegexSpace(rest[0])
    ensures TakeSpaces(g + rest) == (g, rest)
  {
    LeadingSpacesOfGap(g, rest);
    assert (g + rest)[..|g|] == g;
    assert (g + rest)[|g|..] == rest;
  }

  lemma SpacesConcat(a: string, b: string)
    requires IsSpaces(a) && IsSpaces(b)
    ensures IsSpaces(a + b)
  {
    assert forall i :: |a| <= i < |a + b| ==> (a + b)[i] == b[i - |a|];
  }

  /** Moving the gap after an absent hours group keeps the text. */
  lemma ShiftHoursGapKeepsText(p: DurationParts)
    requires WellFormed(p)
    ensures WellFormed(ShiftHoursGap(p)) && Render(ShiftHoursGap(p)) == Render(p)
  {
    if p.hours.None? {
      var q := ShiftHoursGap(p);
      SpacesConcat(p.gap2, p.gap3);
      var M := Group(p.minutes, 'm');
      assert RenderHours(p) == p.gap3 + M;
      assert RenderHours(q) == M;
      assert RenderDays(q) == Group(p.days, 'd') + ((p.gap2 + p.gap3) + M);
      assert RenderDays(q) == RenderDays(p);
    }
  }

  /** Moving the gap after an absent days group keeps the text. */
  lemma ShiftDaysGapKeepsText(p: DurationParts)
    requires WellFormed(p)
    ensures WellFormed(ShiftDaysGap(p)) && Render(ShiftDaysGap(p)) == Render(p)
  {
    if p.days.None? {
      var q := ShiftDaysGap(p);
      SpacesConcat(p.gap1, p.gap2);
      var H := RenderHours(p);
      assert RenderHours(q) == H;
      assert RenderDays(p) == p.gap2 + H;
      assert RenderDays(q) == H;
      assert q.gap1 + RenderDays(q) == (p.gap1 + p.gap2) + H;
    }
  }

  /** Normalizing moves whitespace only: the text and the four groups stay the same. */
  lemma NormalizeKeepsText(p: DurationParts)
    requires WellFormed(p)
    ensures WellFormed(Normalize(p)) && GapsNormalized(Normalize(p)) && Render(Normalize(p)) == Render(p)
    ensures Normalize(p).weeks == p.weeks && Normalize(p).days == p.days
    ensures Normalize(p).hours == p.hours && Normalize(p).minutes == p.minutes
  {
    ShiftHoursGapKeepsText(p);
    ShiftDaysGapKeepsText(ShiftHoursGap(p));
  }

  /** The hours stage matches what it rendered. */
  lemma MatchHoursRendered(p: DurationParts)
    requires HoursOk(p) && GapsNormalized(p)
    ensures MatchHours(RenderHours(p)) == Some(DurationParts(None, "", None, "", p.hours, p.gap3, p.minutes))
  {
    var M := Group(p.minutes, 'm');
    assert M + [] == M;
    if p.hours.Some? {
      TakeOwnGroup(p.hours, 'h', p.gap3 + M);
    } else {
      assert RenderHours(p) == M;
      TakeNoGroup(M, 'h', p.minutes, 'm', []);
    }
    TakeGap(p.gap3, M);
    if p.minutes.Some? {
      TakeOwnGroup(p.minutes, 'm', []);
    }
  }

  /** The days stage matches what it rendered. */
  lemma MatchDaysRendered(p: DurationParts)
    requires DaysOk(p) && GapsNormalized(p)
    ensures MatchDays(RenderDays(p)) == Some(DurationParts(None, "", p.days, p.gap2, p.hours, p.gap3, p.minutes))
  {
    var H := RenderHours(p);
    var M := Group(p.minutes, 'm');
    if p.days.Some? {
      TakeOwnGroup(p.days, 'd', p.gap2 + H);
    } else if p.hours.Some? {
      TakeNoGroup(H, 'd', p.hours, 'h', p.gap3 + M);
    } else {
      assert H == M + [];
      TakeNoGroup(H, 'd', p.minutes, 'm', []);
    }
    TakeGap(p.gap2, H);
    MatchHoursRendered(p);
  }

  /** Under normalized gaps, the text from the days group on is empty or starts with a digit. */
  lemma RenderDaysStart(q: DurationParts)
    requires DaysOk(q) && GapsNormalized(q)
    ensures RenderDays(q) == [] || IsDigit(RenderDays(q)[0])
  {
    var H := RenderHours(q);
    var M := Group(q.minutes, 'm');
    if q.days.None? {
      assert RenderDays(q) == H;
      if q.hours.None? {
        assert H == M;
      }
    }
  }

  /** No weeks group is taken from the text of the days group on. */
  lemma TakeNoWeeks(q: DurationParts)
    requires DaysOk(q) && GapsNormalized(q)
    ensures TakeGroup(RenderDays(q), 'w') == (None, RenderDays(q))
  {
    var D := RenderDays(q);
    var H := RenderHours(q);
    var M := Group(q.minutes, 'm');
    if q.days.Some? {
      TakeNoGroup(D, 'w', q.days, 'd', q.gap2 + H);
    } else if q.hours.Some? {
      assert D == H;
      TakeNoGroup(D, 'w', q.hours, 'h', q.gap3 + M);
    } else {
      assert D == M + [];
      TakeNoGroup(D, 'w', q.minutes, 'm', []);
    }
  }

  /** The weeks group is taken exactly when present. */
  lemma TakeWeeksRendered(q: DurationParts)
    requires WellFormed(q) && GapsNormalized(q)
    ensures TakeGroup(Render(q), 'w') == (q.weeks, q.gap1 + RenderDays(q))
  {
    var D := RenderDays(q);
    if q.weeks.Some? {
      TakeOwnGroup(q.weeks, 'w', q.gap1 + D);
    } else {
      assert Render(q) == q.gap1 + D;
      if q.gap1 != [] {
        TakeNoGroup(q.gap1 + D, 'w', None, 'd', []);
      } else {
        assert q.gap1 + D == D;
        TakeNoWeeks(q);
      }
    }
  }

  /** Completeness of the matcher: every text of the duration shape is matched, with its groups. */
  lemma MatchRendered(p: DurationParts)
    requires WellFormed(p)
    ensures MatchDuration(Render(p)) == Some(Normalize(p))
  {
    NormalizeKeepsText(p);
    var q := Normalize(p);
    var D := RenderDays(q);
    TakeWeeksRendered(q);
    RenderDaysStart(q);
    TakeGap(q.gap1, D);
    MatchDaysRendered(q);
    assert MatchDays(D) == Some(DurationParts(None, "", q.days, q.gap2, q.hours, q.gap3, q.minutes));
  }

  /** Every text of the duration shape parses to the duration its groups denote. */
  lemma ParseRendered(p: DurationParts)
    requires WellFormed(p)
    ensures ParseMinecraftDuration(Render(p)) == DurationOf(p.weeks, p.days, p.hours, p.minutes)
  {
    MatchRendered(p);
    NormalizeKeepsText(p);
    var q := Normalize(p);
    assert MatchDuration(Render(p)) == Some(q);
  }

  /** Only texts of the duration shape are accepted. */
  lemma AcceptedHaveShape(s: string)
    requires ParseMinecraftDuration(s) != Err(InvalidFormat)
    ensures exists p :: WellFormed(p) && Render(p) == s
  {
    var p := MatchDuration(s).value;
    assert WellFormed(p) && Render(p) == s;
  }

  lemma WrapLongInRange(x: int)
    requires InLong(x)
    ensures WrapLong(x) == x
  {
    var y := x - LONG_MIN;
    assert 0 <= y < 0x1_0000_0000_0000_0000;
    assert y % 0x1_0000_0000_0000_0000 == y;
  }

  /** Below 10^14 per component no step overflows and the long products do not wrap. */
  lemma SmallDurationMinutes(w: nat, d: nat, h: nat, m: nat)
    requires w <= 100_000_000_000_000 && d <= 100_000_000_000_000
    requires h <= 100_000_000_000_000 && m <= 100_000_000_000_000
    ensures DurationMinutes(w, d, h, m) == Ok(m + 60 * h + 20 * d + 140 * w)
  {
    WrapLongInRange(d * 20);
    WrapLongInRange(w * 7);
    WrapLongInRange(w * 7 * 20);
    var s3 := m * 60 + h * 3600 + d * 20 * 60 + w * 7 * 20 * 60;
    assert s3 == (m + 60 * h + 20 * d + 140 * w) * 60;
    assert s3 / 60 == m + 60 * h + 20 * d + 140 * w;
  }

  /** A well-formed duration whose groups are all at most 10^14. */
  predicate SmallDuration(p: DurationParts) {
    && WellFormed(p)
    && GroupValue(p.weeks) <= 100_000_000_000_000 && GroupValue(p.days) <= 100_000_000_000_000
    && GroupValue(p.hours) <= 100_000_000_000_000 && GroupValue(p.minutes) <= 100_000_000_000_000
  }

  /** The minutes a duration denotes: a day counts 20 minutes and a week 7 days. */
  function TotalMinutes(p: DurationParts): nat
    requires WellFormed(p)
  {
    GroupValue(p.minutes) + 60 * GroupValue(p.hours) + 20 * GroupValue(p.days) + 140 * GroupValue(p.weeks)
  }

  /** Below the bounds, the checked arithmetic of a duration yields its total minutes. */
  lemma SmallDurationOf(p: DurationParts)
    requires SmallDuration(p)
    ensures DurationOf(p.weeks, p.days, p.hours, p.minutes) == Ok(TotalMinutes(p))
  {
    SmallDurationMinutes(GroupValue(p.weeks), GroupValue(p.days), GroupValue(p.hours), GroupValue(p.minutes));
  }

  /** For groups up to 10^14 a duration text denotes its total minutes. */
  lemma {:induction false} DurationTotal(p: DurationParts)
    requires SmallDuration(p)
    ensures ParseMinecraftDuration(Render(p)) == Ok(TotalMinutes(p))
  {
    SmallDurationOf(p);
    ParseRendered(p);
  }

  /** A duration written out of order, "5m3w", is rejected. */
  lemma OutOfOrderRejected()
    ensures ParseMinecraftDuration("5m3w") == Err(InvalidFormat)
  {
    assert LeadingDigits("5m3w") == 1;
    assert LeadingSpaces("5m3w") == 0;
    assert LeadingDigits("3w") == 1;
    assert LeadingSpaces("3w") == 0;
  }

  // ---------------------------------------------------------------------------
  // parsePriority

  /** Bukkit's EventPriority. */
  datatype EventPriority = Lowest | Low | Normal | High | Highest | Monitor

  function PriorityName(p: EventPriority): string {
    match p
    case Lowest => "LOWEST"
    case Low => "LOW"
    case Normal => "NORMAL"
    case High => "HIGH"
    case Highest => "HIGHEST"
    case Monitor => "MONITOR"
  }

  /** EventPriority.valueOf: the constant with exactly this name, if any. */
  function PriorityNamed(name: string): (r: Option<EventPriority>)
    ensures r.Some? ==> PriorityName(r.value) == name
    ensures forall p :: PriorityName(p) == name ==> r == Some(p)
  {
    if name == "LOWEST" then Some(Lowest)
    else if name == "LOW" then Some(Low)
    else if name == "NORMAL" then Some(Normal)
    else if name == "HIGH" then Some(High)
    else if name == "HIGHEST" then Some(Highest)
    else if name == "MONITOR" then Some(Monitor)
    else None
  }

  /**
   * parsePriority: never fails. The trimmed, upper-cased text selects the
   * priority of that name; null and any text naming no priority give LOWEST.
   */
  function ParsePriority(raw: Option<string>): (p: EventPriority)
    ensures raw.None? ==> p == Lowest
    ensures raw.Some? ==> forall q :: PriorityName(q) == ToUpper(Trim(raw.value)) ==> p == q
    ensures raw.Some? && (forall q :: PriorityName(q) != ToUpper(Trim(raw.value))) ==> p == Lowest
  {
    if raw.None? then Lowest
    else PriorityNamed(ToUpper(Trim(raw.value))).GetOr(Lowest)
  }

  /** Any spelling of a priority name, in any ASCII case and padded, selects that priority. */
  lemma ParsePriorityOfSpelling(p: EventPriority, before: string, word: string, after: string)
    requires forall i :: 0 <= i < |before| ==> IsTrimmable(before[i])
    requires forall i :: 0 <= i < |after| ==> IsTrimmable(after[i])
    requires IsTrimmed(word) && ToUpper(word) == PriorityName(p)
    ensures ParsePriority(Some(before + word + after)) == p
  {
    TrimOfPadded(before, word, after);
  }

  lemma PriorityNameIsUpper(p: EventPriority)
    ensures IsUpperAscii(PriorityName(p)) && |PriorityName(p)| >= 3
  {
  }

  lemma LowerIsTrimmed(s: string)
    requires IsUpperAscii(s)
    ensures IsTrimmed(ToLower(s))
  {
    if s != [] {
      assert 'a' <= ToLower(s)[0] <= 'z';
      assert 'a' <= ToLower(s)[|s| - 1] <= 'z';
    }
  }

  /** The lower-case name of every priority round-trips. */
  lemma ParsePriorityOfLowerName(p: EventPriority)
    ensures ParsePriority(Some(ToLower(PriorityName(p)))) == p
  {
    var name := PriorityName(p);
    PriorityNameIsUpper(p);
    var word := ToLower(name);
    UpperOfLower(name);
    LowerIsTrimmed(name);
    TrimOfTrimmed(word);
  }

  // ---------------------------------------------------------------------------
  // compileKnowledge / appendSection

  /** A configuration value under the knowledge key: a scalar, a list or a nested section. */
  datatype ConfigValue =
    | Scalar(text: string)                 // String.valueOf(value)
    | Items(items: seq<Option<string>>)    // list elements, None where the element is null
    | Section(entries: seq<Entry>)         // keys in their insertion order

  datatype Entry = Entry(key: string, value: ConfigValue)

  /** A newline is added before a piece only once the builder holds some text. */
  function NewLineIfStarted(sb: string): string {
    if |sb| > 0 then sb + "\n" else sb
  }

  /** The list case of compileKnowledge: non-null items, each after a newline once the text is non-empty. */
  function JoinNonNull(items: seq<Option<string>>): string {
    if items == [] then ""
    else
      var sb := JoinNonNull(items[..|items| - 1]);
      match items[|items| - 1]
      case None => sb
      case Some(x) => NewLineIfStarted(sb) + x
  }

  /** The empty string repeated n times: the indent that appendSection computes from the depth. */
  function RepeatEmpty(n: nat): string {
    if n == 0 then "" else "" + RepeatEmpty(n - 1)
  }

  function Indent(depth: int): string {
    RepeatEmpty(if depth < 0 then 0 else depth)
  }

  /** The item lines of a list entry, each "- item" and a newline. */
  function ItemLines(sb: string, items: seq<Option<string>>, indent: string): string {
    if items == [] then sb
    else ItemLines(sb, items[..|items| - 1], indent) + indent + "- " + JavaString(items[|items| - 1]) + "\n"
  }

  /** What appendSection appends for one entry. */
  function EntryText(sb: string, e: Entry, depth: int): string
    decreases e
  {
    match e.value
    case Section(es) => SectionText(NewLineIfStarted(sb) + ToUpper(e.key) + ":\n", es, depth + 1)
    case Items(items) => ItemLines(NewLineIfStarted(sb) + e.key + ":\n", items, Indent(depth))
    case Scalar(v) => NewLineIfStarted(sb) + e.key + ": " + v
  }

  /** The builder's text after appendSection has visited the entries in order. */
  function SectionText(sb: string, es: seq<Entry>, depth: int): string
    decreases es
  {
    if es == [] then sb else EntryText(SectionText(sb, es[..|es| - 1], depth), es[|es| - 1], depth)
  }

  /** compileKnowledge: the knowledge text, given the value under the key (None when absent or null). */
  function KnowledgeText(raw: Option<ConfigValue>): string {
    match raw
    case None => ""
    case Some(Scalar(s)) => Trim(s)
    case Some(Items(items)) => Trim(JoinNonNull(items))
    case Some(Section(es)) => Trim(SectionText("", es, 0))
  }

  method AppendItems(sb0: string, items: seq<Option<string>>, indent: string) returns (sb: string)
    ensures sb == ItemLines(sb0, items, indent)
  {
    sb := sb0;
    var i := 0;
    while i < |items|
      invariant 0 <= i <= |items|
      invariant sb == ItemLines(sb0, items[..i], indent)
    {
      assert items[..i + 1][..i] == items[..i];
      sb := sb + indent + "- " + JavaString(items[i]) + "\n";
      i := i + 1;
    }
    assert items[..i] == items;
  }

  /** appendSection: appends every entry of a section to the builder. */
  method AppendSection(sb0: string, es: seq<Entry>, depth: int) returns (sb: string)
    ensures sb == SectionText(sb0, es, depth)
    decreases es
  {
    var indent := Indent(depth);
    sb := sb0;
    var i := 0;
    while i < |es|
      invariant 0 <= i <= |es|
      invariant sb == SectionText(sb0, es[..i], depth)
    {
      assert es[..i + 1][..i] == es[..i];
      var e := es[i];
      match e.value {
        case Section(sub) =>
          sb := NewLineIfStarted(sb) + ToUpper(e.key) + ":\n";
          sb := AppendSection(sb, sub, depth + 1);
        case Items(items) =>
          sb := NewLineIfStarted(sb) + e.key + ":\n";
          sb := AppendItems(sb, items, indent);
        case Scalar(v) =>
          sb := NewLineIfStarted(sb) + e.key + ": " + v;
      }
      i := i + 1;
    }
    assert es[..i] == es;
  }

  /** compileKnowledge. */
  method CompileKnowledge(raw: Option<ConfigValue>) returns (text: string)
    ensures text == KnowledgeText(raw)
  {
    match raw {
      case None =>
        text := "";
      case Some(Scalar(s)) =>
        text := Trim(s);
      case Some(Items(items)) =>
        var sb := "";
        var i := 0;
        while i < |items|
          invariant 0 <= i <= |items|
          invariant sb == JoinNonNull(items[..i])
        {
          assert items[..i + 1][..i] == items[..i];
          if items[i].Some? {
            if |sb| > 0 {
              sb := sb + "\n";
            }
            sb := sb + items[i].value;
          }
          i := i + 1;
        }
        assert items[..i] == items;
        text := Trim(sb);
      case Some(Section(es)) =>
        var sb := AppendSection("", es, 0);
        text := Trim(sb);
    }
  }

  /** The reference join: the strings with one newline between neighbours. */
  function JoinLines(xs: seq<string>): string {
    if xs == [] then ""
    else if |xs| == 1 then xs[0]
    else JoinLines(xs[..|xs| - 1]) + "\n" + xs[|xs| - 1]
  }

  /** The non-null items of a list, in order. */
  function Present(items: seq<Option<string>>): seq<string> {
    if items == [] then []
    else Present(items[..|items| - 1]) + (if items[|items| - 1].Some? then [items[|items| - 1].value] else [])
  }

  /** With non-empty items, the list case is the newline join of the non-null items. */
  lemma {:induction false} JoinNonNullIsJoin(items: seq<Option<string>>)
    requires forall i :: 0 <= i < |items| && items[i].Some? ==> items[i].value != ""
    ensures JoinNonNull(items) == JoinLines(Present(items))
    ensures JoinNonNull(items) == "" <==> Present(items) == []
  {
    if items != [] {
      var init := items[..|items| - 1];
      JoinNonNullIsJoin(init);
      var p := Present(init);
      if items[|items| - 1].Some? {
        var x := items[|items| - 1].value;
        assert Present(items) == p + [x];
        if p != [] {
          assert (p + [x])[..|p + [x]| - 1] == p;
        }
      } else {
        assert Present(items) == p + [] == p;
      }
    }
  }

  /** An empty item is not skipped but leaves no newline behind it: ["", "a"] gives "a". */
  lemma EmptyFirstItemLeavesNoNewLine(x: string)
    ensures JoinNonNull([Some(""), Some(x)]) == x
  {
    assert [Some(""), Some(x)][..1] == [Some("")];
    assert [Some("")][..0] == [];
  }

  /** The indent is empty at every depth. */
  lemma {:induction false} IndentIsEmpty(n: nat)
    ensures RepeatEmpty(n) == ""
  {
    if n > 0 {
      IndentIsEmpty(n - 1);
    }
  }

  function ScalarLine(e: Entry): string
    requires e.value.Scalar?
  {
    e.key + ": " + e.value.text
  }

  /** The "key: value" lines of a section of scalars, one per entry in order. */
  function ScalarLines(es: seq<Entry>): (r: seq<string>)
    requires forall i :: 0 <= i < |es| ==> es[i].value.Scalar?
    ensures |r| == |es|
    ensures forall i :: 0 <= i < |es| ==> r[i] == es[i].key + ": " + es[i].value.text
  {
    if es == [] then [] else ScalarLines(es[..|es| - 1]) + [ScalarLine(es[|es| - 1])]
  }

  /** A section of scalar entries renders as one "key: value" line per entry. */
  lemma {:induction false} ScalarSectionLines(es: seq<Entry>, depth: int)
    requires forall i :: 0 <= i < |es| ==> es[i].value.Scalar?
    ensures SectionText("", es, depth) == JoinLines(ScalarLines(es))
    ensures es != [] ==> |SectionText("", es, depth)| > 0
  {
    if es != [] {
      var init := es[..|es| - 1];
      var last := es[|es| - 1];
      ScalarSectionLines(init, depth);
      var lines := ScalarLines(init);
      var line := ScalarLine(last);
      ScalarSectionStep(es, depth);
      JoinLinesSnoc(lines, line);
    }
  }

  /** One more scalar entry adds its line, after a newline once the text is non-empty. */
  lemma ScalarSectionStep(es: seq<Entry>, depth: int)
    requires es != [] && forall i :: 0 <= i < |es| ==> es[i].value.Scalar?
    ensures SectionText("", es, depth) == NewLineIfStarted(SectionText("", es[..|es| - 1], depth)) + ScalarLine(es[|es| - 1])
    ensures ScalarLines(es) == ScalarLines(es[..|es| - 1]) + [ScalarLine(es[|es| - 1])]
  { }

  lemma JoinLinesSnoc(xs: seq<string>, x: string)
    ensures JoinLines(xs + [x]) == if xs == [] then x else JoinLines(xs) + "\n" + x
  {
    assert (xs + [x])[..|xs|] == xs;
  }

  lemma {:induction false} ItemLinesPrefix(sb: string, items: seq<Option<string>>, indent: string)
    ensures sb <= ItemLines(sb, items, indent)
  {
    if items != [] {
      ItemLinesPrefix(sb, items[..|items| - 1], indent);
    }
  }

  /** What an entry appends comes after the builder's text and the newline that separates it. */
  lemma {:induction false} EntryTextPrefix(sb: string, e: Entry, depth: int)
    ensures NewLineIfStarted(sb) <= EntryText(sb, e, depth)
    decreases e
  {
    match e.value
    case Section(es) =>
      SectionTextPrefix(NewLineIfStarted(sb) + ToUpper(e.key) + ":\n", es, depth + 1);
    case Items(items) =>
      ItemLinesPrefix(NewLineIfStarted(sb) + e.key + ":\n", items, Indent(depth));
    case Scalar(v) =>
  }

  /** The builder only grows. */
  lemma {:induction false} SectionTextPrefix(sb: string, es: seq<Entry>, depth: int)
    ensures sb <= SectionText(sb, es, depth)
    decreases es
  {
    if es != [] {
      var init := SectionText(sb, es[..|es| - 1], depth);
      SectionTextPrefix(sb, es[..|es| - 1], depth);
      EntryTextPrefix(init, es[|es| - 1], depth);
    }
  }

  /** The text after the first k entries is a prefix of the text after all of them. */
  lemma {:induction false} SectionTextOfFirst(sb: string, es: seq<Entry>, k: nat, depth: int)
    requires k <= |es|
    ensures SectionText(sb, es[..k], depth) <= SectionText(sb, es, depth)
  {
    if k < |es| {
      var init := es[..|es| - 1];
      assert init[..k] == es[..k];
      SectionTextOfFirst(sb, init, k, depth);
      EntryTextPrefix(SectionText(sb, init, depth), es[|es| - 1], depth);
    } else {
      assert es[..k] == es;
    }
  }

  /**
   * A nested section writes its key upper-cased and a colon, after a newline
   * when the builder is not empty, and its first entry after an empty line,
   * whatever the builder, the depth and the section's entries.
   */
  lemma NestedSectionBlankLine(sb: string, key: string, first: Entry, rest: seq<Entry>, depth: int)
    ensures NewLineIfStarted(sb) + ToUpper(key) + ":\n\n" <= SectionText(sb, [Entry(key, Section([first] + rest))], depth)
  {
    var outer := [Entry(key, Section([first] + rest))];
    assert outer[..0] == [];
    var head := NewLineIfStarted(sb) + ToUpper(key) + ":\n";
    var inner := [first] + rest;
    assert SectionText(sb, outer, depth) == SectionText(head, inner, depth + 1);
    SectionTextOfFirst(head, inner, 1, depth + 1);
    assert inner[..1] == [first];
    assert [first][..0] == [];
    assert SectionText(head, [first], depth + 1) == EntryText(head, first, depth + 1);
    EntryTextPrefix(head, first, depth + 1);
    assert NewLineIfStarted(head) == NewLineIfStarted(sb) + ToUpper(key) + ":\n\n";
  }

  function Bullets(items: seq<Option<string>>): string {
    if items == [] then "" else Bullets(items[..|items| - 1]) + "- " + JavaString(items[|items| - 1]) + "\n"
  }

  /** A list entry renders "key:" and then one "- item" line per element, with no indent at any depth. */
  lemma {:induction false} ListEntryLines(sb: string, key: string, items: seq<Option<string>>, depth: int)
    ensures EntryText(sb, Entry(key, Items(items)), depth) == NewLineIfStarted(sb) + key + ":\n" + Bullets(items)
  {
    IndentIsEmpty(if depth < 0 then 0 else depth);
    ItemLinesUnindented(NewLineIfStarted(sb) + key + ":\n", items);
  }

  lemma {:induction false} ItemLinesUnindented(sb: string, items: seq<Option<string>>)
    ensures ItemLines(sb, items, "") == sb + Bullets(items)
  {
    if items != [] {
      ItemLinesUnindented(sb, items[..|items| - 1]);
    }
  }

  // ---------------------------------------------------------------------------
  // getNpcPrompt

  const FALLBACK_DEFAULT_PROMPT := "You are an intelligent NPC on a Minecraft Java server."

  /**
   * getNpcPrompt: null for an NPC without an npcs entry; otherwise the default
   * prompt, followed by a space and the NPC's own prompt when that is non-empty.
   */
  function GetNpcPrompt(file: ConfigFile, npcName: string): (r: Option<string>)
    ensures r.None? <==> npcName !in file.npcPrompts
    ensures r.Some? ==> file.defaultPromptEntry.GetOr(FALLBACK_DEFAULT_PROMPT) <= r.value
    ensures r.Some? ==> (r.value == file.defaultPromptEntry.GetOr(FALLBACK_DEFAULT_PROMPT) <==> file.npcPrompts[npcName] == "")
    ensures r.Some? && file.npcPrompts[npcName] != "" ==>
      r.value[|file.defaultPromptEntry.GetOr(FALLBACK_DEFAULT_PROMPT)|..] == " " + file.npcPrompts[npcName]
  {
    if npcName !in file.npcPrompts then None
    else
      var defaultPrompt := file.defaultPromptEntry.GetOr(FALLBACK_DEFAULT_PROMPT);
      var npcSpecificPrompt := file.npcPrompts[npcName];
      Some(defaultPrompt + (if npcSpecificPrompt == "" then "" else " " + npcSpecificPrompt))
  }

  /**
   * A configured NPC's combined prompt is blank exactly when both the default
   * prompt and the NPC's own prompt are blank.
   */
  lemma GetNpcPromptBlank(file: ConfigFile, npcName: string)
    requires npcName in file.npcPrompts
    ensures IsBlank(GetNpcPrompt(file, npcName).value) <==>
      IsBlank(file.defaultPromptEntry.GetOr(FALLBACK_DEFAULT_PROMPT)) && IsBlank(file.npcPrompts[npcName])
  {
    var d := file.defaultPromptEntry.GetOr(FALLBACK_DEFAULT_PROMPT);
    var n := file.npcPrompts[npcName];
    if n == "" {
      assert d + "" == d;
    } else {
      BlankConcat(" ", n);
      BlankConcat(d, " " + n);
    }
  }

  // ---------------------------------------------------------------------------
  // toggleDebugMode

  /** The mutable part of ArchGPTConfig: the debug flag. */
  class ArchGptConfig {
    var debugMode: bool

    constructor (debugMode: bool)
      ensures this.debugMode == debugMode
    {
      this.debugMode := debugMode;
    }

    /** toggleDebugMode: negates the flag. */
    method ToggleDebugMode()
      modifies this
      ensures debugMode == !old(debugMode)
    {
      debugMode := !debugMode;
    }
  }

  /** Toggling twice restores the flag. */
  method ToggleTwice(config: ArchGptConfig)
    modifies config
    ensures config.debugMode == old(config.debugMode)
  {
    config.ToggleDebugMode();
    config.ToggleDebugMode();
  }
}
