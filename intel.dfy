/** The AI brief: the section parser for the model's reply, the risk-row and
    threat-line cleaning, the local-summary parser, and the branches of
    GenerateBrief that decide without the network (intel/intel.go). The HTTP
    exchange itself is an input: the reply the service would have sent. */
module Intel {
  import opened Wrappers
  import opened Strings
  import Feeds

  datatype CountryRisk = CountryRisk(country: string, score: int, reason: string)

  /** intel.Brief; the generation time is integer seconds. */
  datatype Brief = Brief(
    summary: string,
    keyThreats: seq<string>,
    countryRisks: seq<CountryRisk>,
    generatedAt: int,
    model: string)

  /** clamp(v, lo, hi). */
  function Clamp(v: int, lo: int, hi: int): (r: int)
    ensures lo <= hi ==> lo <= r <= hi
    ensures lo <= v <= hi ==> r == v
    ensures v < lo ==> r == lo
    ensures lo <= v && hi < v ==> r == hi
  {
    if v < lo then lo else if v > hi then hi else v
  }

  // ---------------------------------------------------------------------------
  // Sections of the reply
  // ---------------------------------------------------------------------------

  /** The three section keys of parseBriefResponse's map. */
  datatype Section = Summary | Threats | CountryRisks

  /** The section a line opens: only a line whose trimmed text is exactly
      "SUMMARY:", "THREATS:" or "COUNTRY_RISKS:". */
  function HeaderOf(line: string): Option<Section> {
    var t := TrimSpace(line);
    if t == "SUMMARY:" then Some(Summary)
    else if t == "THREATS:" then Some(Threats)
    else if t == "COUNTRY_RISKS:" then Some(CountryRisks)
    else None
  }

  /** Lines from..to-1, each followed by a newline, as the buffer collects them. */
  function Body(lines: seq<string>, from: nat, to: nat): string
    requires to <= |lines|
  {
    if to <= from then "" else Body(lines, from, to - 1) + lines[to - 1] + "\n"
  }

  /** The header each line opens, line by line. */
  function Headers(lines: seq<string>): (hs: seq<Option<Section>>)
    ensures |hs| == |lines|
  {
    if |lines| == 0 then [] else Headers(lines[..|lines| - 1]) + [HeaderOf(lines[|lines| - 1])]
  }

  lemma {:induction false} HeadersAt(lines: seq<string>, k: nat)
    requires k < |lines|
    ensures Headers(lines)[k] == HeaderOf(lines[k])
  {
    if k < |lines| - 1 {
      HeadersAt(lines[..|lines| - 1], k);
    }
  }

  /** The last of the first `n` lines that opens section `name`. */
  function LastHeader(hs: seq<Option<Section>>, name: Section, n: nat): (r: Option<nat>)
    requires n <= |hs|
    ensures r.Some? ==> r.value < n && hs[r.value] == Some(name)
    ensures r.Some? ==> forall k :: r.value < k < n ==> hs[k] != Some(name)
    ensures r.None? ==> forall k :: 0 <= k < n ==> hs[k] != Some(name)
  {
    if n == 0 then None
    else if hs[n - 1] == Some(name) then Some(n - 1)
    else LastHeader(hs, name, n - 1)
  }

  /** The first header line at or after `j`, or the end of the reply. */
  function NextHeader(hs: seq<Option<Section>>, j: nat): (m: nat)
    requires j <= |hs|
    ensures j <= m <= |hs|
    ensures m < |hs| ==> hs[m].Some?
    ensures forall k :: j <= k < m ==> hs[k].None?
    decreases |hs| - j
  {
    if j == |hs| then j
    else if hs[j].Some? then j
    else NextHeader(hs, j + 1)
  }

  lemma NextHeaderIs(hs: seq<Option<Section>>, j: nat, m: nat)
    requires j <= m <= |hs|
    requires m < |hs| ==> hs[m].Some?
    requires forall k :: j <= k < m ==> hs[k].None?
    ensures NextHeader(hs, j) == m
  {
  }

  /** The text of section `name`: the block of lines after its LAST header up
      to the next header of any kind, trimmed as a whole (inner lines keep
      their own spaces); None when the header never appears. */
  ghost function SectionText(lines: seq<string>, name: Section): Option<string> {
    var hs := Headers(lines);
    var last := LastHeader(hs, name, |lines|);
    if last.None? then None else Some(ClosedText(lines, hs, last.value))
  }

  ghost predicate Agrees(sections: map<Section, string>, lines: seq<string>, name: Section) {
    && (name in sections <==> SectionText(lines, name).Some?)
    && (name in sections ==> sections[name] == SectionText(lines, name).value)
  }

  /** What the section map holds for a section that is already closed after
      the first `i` lines. */
  ghost predicate ClosedAgrees(sections: map<Section, string>, lines: seq<string>,
                               hs: seq<Option<Section>>, name: Section, i: nat)
    requires |hs| == |lines| && i <= |lines|
  {
    var last := LastHeader(hs, name, i);
    && (last.None? ==> name !in sections)
    && (last.Some? ==> name in sections && sections[name] == ClosedText(lines, hs, last.value))
  }

  /** The trimmed text of the section whose header is line `g`. */
  ghost function ClosedText(lines: seq<string>, hs: seq<Option<Section>>, g: nat): string
    requires |hs| == |lines| && g < |lines|
  {
    TrimSpace(Body(lines, g + 1, NextHeader(hs, g + 1)))
  }

  /** A line that opens another section leaves a closed section as it was. */
  lemma ClosedStep(sections: map<Section, string>, lines: seq<string>,
                   hs: seq<Option<Section>>, name: Section, i: nat)
    requires |hs| == |lines| && i < |lines| && hs[i] != Some(name)
    requires ClosedAgrees(sections, lines, hs, name, i)
    ensures ClosedAgrees(sections, lines, hs, name, i + 1)
  {
    assert LastHeader(hs, name, i + 1) == LastHeader(hs, name, i);
  }

  /** Storing another section's text leaves a closed section as it was. */
  lemma ClosedStore(sections: map<Section, string>, lines: seq<string>,
                    hs: seq<Option<Section>>, name: Section, i: nat, other: Section, text: string)
    requires |hs| == |lines| && i <= |lines| && other != name
    requires ClosedAgrees(sections, lines, hs, name, i)
    ensures ClosedAgrees(sections[other := text], lines, hs, name, i)
  {
  }

  /** Storing the open section's buffer when the next header arrives closes it. */
  lemma ClosedNow(sections: map<Section, string>, lines: seq<string>,
                  hs: seq<Option<Section>>, name: Section, h: nat, i: nat)
    requires |hs| == |lines| && h < i <= |lines|
    requires hs[h] == Some(name)
    requires forall k :: h < k < i ==> hs[k].None?
    requires i < |lines| ==> hs[i].Some?
    ensures ClosedAgrees(sections[name := TrimSpace(Body(lines, h + 1, i))], lines, hs, name, i)
  {
    var text := TrimSpace(Body(lines, h + 1, i));
    assert ClosedText(lines, hs, h) == text by {
      NextHeaderIs(hs, h + 1, i);
    }
    assert LastHeader(hs, name, i) == Some(h) by {
      LastHeaderIs(hs, name, h, i);
    }
  }

  lemma {:induction false} LastHeaderIs(hs: seq<Option<Section>>, name: Section, h: nat, n: nat)
    requires h < n <= |hs| && hs[h] == Some(name)
    requires forall k :: h < k < n ==> hs[k].None?
    ensures LastHeader(hs, name, n) == Some(h)
    decreases n
  {
    if n - 1 != h {
      LastHeaderIs(hs, name, h, n - 1);
    }
  }

  /** Every section other than the open one is closed and agrees after the
      first `i` lines. */
  ghost predicate AllClosed(sections: map<Section, string>, lines: seq<string>,
                            hs: seq<Option<Section>>, current: Option<Section>, i: nat)
    requires |hs| == |lines| && i <= |lines|
  {
    forall name :: Some(name) != current ==> ClosedAgrees(sections, lines, hs, name, i)
  }

  /** A line that opens no section changes nothing that is closed. */
  lemma PlainLineStep(sections: map<Section, string>, lines: seq<string>,
                      hs: seq<Option<Section>>, current: Option<Section>, i: nat)
    requires |hs| == |lines| && i < |lines| && hs[i].None?
    requires AllClosed(sections, lines, hs, current, i)
    ensures AllClosed(sections, lines, hs, current, i + 1)
  {
    forall name | Some(name) != current
      ensures ClosedAgrees(sections, lines, hs, name, i + 1)
    {
      ClosedStep(sections, lines, hs, name, i);
    }
  }

  /** A header line stores the open section, if any, and opens its own. */
  lemma HeaderLineStep(before: map<Section, string>, after: map<Section, string>,
                       lines: seq<string>, hs: seq<Option<Section>>,
                       current: Option<Section>, h: nat, i: nat)
    requires |hs| == |lines| && i < |lines| && hs[i].Some?
    requires current.None? ==> before == map[] && after == before && forall k :: 0 <= k < i ==> hs[k].None?
    requires current.Some? ==> h < i && hs[h] == current && forall k :: h < k < i ==> hs[k].None?
    requires current.Some? ==> after == before[current.value := TrimSpace(Body(lines, h + 1, i))]
    requires AllClosed(before, lines, hs, current, i)
    ensures AllClosed(after, lines, hs, hs[i], i + 1)
  {
    forall name | Some(name) != hs[i]
      ensures ClosedAgrees(after, lines, hs, name, i + 1)
    {
      if current.None? {
        assert LastHeader(hs, name, i) == None;
      } else if Some(name) == current {
        ClosedNow(before, lines, hs, name, h, i);
      } else {
        ClosedStore(before, lines, hs, name, i, current.value, TrimSpace(Body(lines, h + 1, i)));
      }
      ClosedStep(after, lines, hs, name, i);
    }
  }

  /** The end of the reply stores the open section, if any. */
  lemma EndStep(before: map<Section, string>, after: map<Section, string>,
                lines: seq<string>, hs: seq<Option<Section>>, current: Option<Section>, h: nat)
    requires |hs| == |lines|
    requires current.None? ==> before == map[] && after == before && forall k :: 0 <= k < |lines| ==> hs[k].None?
    requires current.Some? ==> h < |lines| && hs[h] == current && forall k :: h < k < |lines| ==> hs[k].None?
    requires current.Some? ==> after == before[current.value := TrimSpace(Body(lines, h + 1, |lines|))]
    requires AllClosed(before, lines, hs, current, |lines|)
    ensures forall name :: ClosedAgrees(after, lines, hs, name, |lines|)
  {
    forall name ensures ClosedAgrees(after, lines, hs, name, |lines|) {
      if current.None? {
        assert LastHeader(hs, name, |lines|) == None;
      } else if Some(name) == current {
        ClosedNow(before, lines, hs, name, h, |lines|);
      } else {
        ClosedStore(before, lines, hs, name, |lines|, current.value, TrimSpace(Body(lines, h + 1, |lines|)));
      }
    }
  }

  /** The switch on a trimmed line that recognises a header. */
  method LineHeader(lines: seq<string>, i: nat) returns (header: Option<Section>)
    requires i < |lines|
    ensures header == Headers(lines)[i]
  {
    var t := TrimSpace(lines[i]);
    if t == "SUMMARY:" {
      header := Some(Summary);
    } else if t == "THREATS:" {
      header := Some(Threats);
    } else if t == "COUNTRY_RISKS:" {
      header := Some(CountryRisks);
    } else {
      header := None;
    }
    HeadersAt(lines, i);
  }

  /** The state of the section loop after the first `i` lines: the open
      section's header is line `h` and `buf` holds the lines after it. */
  ghost predicate Scanned(lines: seq<string>, hs: seq<Option<Section>>,
                          sections: map<Section, string>, current: Option<Section>,
                          buf: string, h: nat, i: nat)
  {
    && |hs| == |lines| && i <= |lines|
    && (current.None? ==> sections == map[] && forall k :: 0 <= k < i ==> hs[k].None?)
    && (current.Some? ==> h < i && hs[h] == current && buf == Body(lines, h + 1, i))
    && (current.Some? ==> forall k :: h < k < i ==> hs[k].None?)
    && AllClosed(sections, lines, hs, current, i)
  }

  /** One turn of the section loop keeps Scanned. */
  lemma ScanStep(lines: seq<string>, hs: seq<Option<Section>>,
                 sections: map<Section, string>, current: Option<Section>, buf: string, h: nat, i: nat,
                 sections': map<Section, string>, current': Option<Section>, buf': string, h': nat)
    requires Scanned(lines, hs, sections, current, buf, h, i) && i < |lines|
    requires hs[i].Some? ==> current' == hs[i] && buf' == "" && h' == i
    requires hs[i].Some? && current.Some? ==> sections' == sections[current.value := TrimSpace(buf)]
    requires hs[i].Some? && current.None? ==> sections' == sections
    requires hs[i].None? ==> current' == current && h' == h && sections' == sections
    requires hs[i].None? && current.Some? ==> buf' == buf + lines[i] + "\n"
    ensures Scanned(lines, hs, sections', current', buf', h', i + 1)
  {
    if hs[i].Some? {
      HeaderLineStep(sections, sections', lines, hs, current, h, i);
    } else {
      PlainLineStep(sections, lines, hs, current, i);
    }
  }

  /** The section-splitting loop of parseBriefResponse. */
  method SplitSections(lines: seq<string>) returns (sections: map<Section, string>)
    ensures forall name :: Agrees(sections, lines, name)
  {
    ghost var hs := Headers(lines);
    sections := map[];
    var current: Option<Section> := None;
    var buf := "";
    ghost var h := 0;
    var i := 0;
    while i < |lines|
      invariant Scanned(lines, hs, sections, current, buf, h, i)
    {
      ghost var (sections0, current0, buf0, h0) := (sections, current, buf, h);
      var line := lines[i];
      var header := LineHeader(lines, i);
      if header.Some? {
        if current.Some? {
          sections := sections[current.value := TrimSpace(buf)];
        }
        current := header;
        buf := "";
        h := i;
      } else if current.Some? {
        buf := buf + line + "\n";
      }
      ScanStep(lines, hs, sections0, current0, buf0, h0, i, sections, current, buf, h);
      i := i + 1;
    }
    ghost var before := sections;
    if current.Some? {
      sections := sections[current.value := TrimSpace(buf)];
    }
    EndStep(before, sections, lines, hs, current, h);
    forall name ensures Agrees(sections, lines, name) {
      ClosedIsSection(sections, lines, name);
    }
  }

  /** Once every line is read, a closed section holds its section text. */
  lemma ClosedIsSection(sections: map<Section, string>, lines: seq<string>, name: Section)
    requires ClosedAgrees(sections, lines, Headers(lines), name, |lines|)
    ensures Agrees(sections, lines, name)
  {
  }

  // ---------------------------------------------------------------------------
  // Threats
  // ---------------------------------------------------------------------------

  /** One threat line: trimmed, then one leading bullet, dash and asterisk
      removed in that order, then trimmed again. */
  function CleanThreat(line: string): (r: string)
    ensures IsTrimmed(r)
  {
    var stripped := TrimPrefix(TrimPrefix(TrimPrefix(TrimSpace(line), "•"), "-"), "*");
    TrimSpaceIsTrimmed(stripped);
    TrimSpace(stripped)
  }

  /** A threat line's contribution: its cleaned text unless that is empty. */
  function ThreatRow(line: string): (r: Option<string>)
    ensures r.Some? ==> r.value != "" && IsTrimmed(r.value)
  {
    var t := CleanThreat(line);
    if t != "" then Some(t) else None
  }

  function ThreatRows(lines: seq<string>): (rows: seq<Option<string>>)
    ensures |rows| == |lines|
    ensures forall k :: 0 <= k < |lines| ==> rows[k] == ThreatRow(lines[k])
  {
    seq(|lines|, k requires 0 <= k < |lines| => ThreatRow(lines[k]))
  }

  /** The threats a sequence of lines yields: the non-empty cleaned lines, in
      order. */
  function ThreatsOf(lines: seq<string>): seq<string> {
    Somes(ThreatRows(lines))
  }

  /** Every threat is non-empty and has no surrounding whitespace. */
  lemma ThreatsAreClean(lines: seq<string>)
    ensures forall k :: 0 <= k < |ThreatsOf(lines)| ==>
      ThreatsOf(lines)[k] != "" && IsTrimmed(ThreatsOf(lines)[k])
  {
    SomesKeep(ThreatRows(lines), t => t != "" && IsTrimmed(t));
  }

  /** A bulleted line loses its bullet and the spaces around it. */
  lemma BulletStripped()
    ensures CleanThreat(" • War ") == "War"
  {
    BulletLineTrimmed();
    assert TrimPrefix("• War", "•") == " War";
    assert " War"[..1] == " ";
    assert TrimPrefix(" War", "-") == " War";
    assert TrimPrefix(" War", "*") == " War";
    TextAfterBulletTrimmed();
  }

  lemma BulletLineTrimmed()
    ensures TrimSpace(" • War ") == "• War"
  {
    assert SkipSpaces(" • War ", 0) == 1;
    assert SkipSpacesBack(" • War ", 1, 7) == 6;
  }

  lemma TextAfterBulletTrimmed()
    ensures TrimSpace(" War") == "War"
  {
    assert SkipSpaces(" War", 0) == 1;
    assert SkipSpacesBack(" War", 1, 4) == 4;
  }

  /** On the example "•-*X", CleanThreat removes the bullet, the dash and the
      asterisk once each, in that order. */
  lemma MarkersStrippedInOrder()
    ensures CleanThreat("•-*X") == "X"
  {
    assert TrimSpace("•-*X") == "•-*X";
    assert TrimPrefix("•-*X", "•") == "-*X";
    assert TrimPrefix("-*X", "-") == "*X";
    assert TrimPrefix("*X", "*") == "X";
    assert TrimSpace("X") == "X";
  }

  /** A dash after an asterisk is kept: the dash is looked for first. */
  lemma DashAfterAsteriskKept()
    ensures CleanThreat("*-X") == "-X"
  {
    assert TrimSpace("*-X") == "*-X";
    assert TrimPrefix("*-X", "•") == "*-X";
    assert TrimPrefix("*-X", "-") == "*-X";
    assert TrimPrefix("*-X", "*") == "-X";
    assert TrimSpace("-X") == "-X";
  }

  /** The cleaning statements of parseBriefResponse's threat loop. */
  method CleanThreatLine(text: string) returns (line: string)
    ensures line == CleanThreat(text)
  {
    line := TrimSpace(text);
    line := TrimPrefix(line, "•");
    line := TrimPrefix(line, "-");
    line := TrimPrefix(line, "*");
    line := TrimSpace(line);
  }

  /** One more line adds its cleaned text, unless that is empty. */
  lemma ThreatsStep(lines: seq<string>, i: nat)
    requires i < |lines|
    ensures ThreatsOf(lines[..i + 1]) == ThreatsOf(lines[..i]) + (if ThreatRow(lines[i]).Some? then [ThreatRow(lines[i]).value] else [])
  {
    var rows := ThreatRows(lines[..i + 1]);
    assert rows[..i] == ThreatRows(lines[..i]);
    assert rows[i] == ThreatRow(lines[i]);
  }

  /** The threat loop over the lines of the THREATS section. */
  method ThreatLoop(lines: seq<string>) returns (threats: seq<string>)
    ensures threats == ThreatsOf(lines)
  {
    threats := [];
    var i := 0;
    while i < |lines|
      invariant 0 <= i <= |lines|
      invariant threats == ThreatsOf(lines[..i])
    {
      ThreatsStep(lines, i);
      var line := CleanThreatLine(lines[i]);
      if line != "" {
        threats := threats + [line];
      }
      i := i + 1;
    }
    assert lines[..i] == lines;
  }

  method ParseThreats(text: string) returns (threats: seq<string>)
    ensures threats == ThreatsOf(Split(text, '\n'))
  {
    var lines := Split(text, '\n');
    threats := ThreatLoop(lines);
  }

  // ---------------------------------------------------------------------------
  // Country risks
  // ---------------------------------------------------------------------------

  /** One COUNTRY_RISKS row, "Country|score|reason", or None when it is skipped. */
  function RiskRow(line: string): (r: Option<CountryRisk>)
    ensures var t := TrimSpace(line); var parts := SplitN3(t, '|');
      r.Some? <==> (t != "" && |parts| >= 2 && TrimSpace(parts[0]) != "" && Atoi(TrimSpace(parts[1])).Some?)
    ensures r.Some? ==> var parts := SplitN3(TrimSpace(line), '|');
      && r.value.country == TrimSpace(parts[0]) && r.value.country != ""
      && 0 <= r.value.score <= 100
      && r.value.score == Clamp(Atoi(TrimSpace(parts[1])).value, 0, 100)
      && r.value.reason == (if |parts| == 3 then TrimSpace(parts[2]) else "")
  {
    var t := TrimSpace(line);
    if t == "" then None
    else
      var parts := SplitN3(t, '|');
      if |parts| < 2 then None
      else
        var country := TrimSpace(parts[0]);
        var score := Atoi(TrimSpace(parts[1]));
        if score.None? || country == "" then None
        else
          var reason := if |parts| == 3 then TrimSpace(parts[2]) else "";
          Some(CountryRisk(country, Clamp(score.value, 0, 100), reason))
  }

  function RiskRows(lines: seq<string>): (rows: seq<Option<CountryRisk>>)
    ensures |rows| == |lines|
    ensures forall k :: 0 <= k < |lines| ==> rows[k] == RiskRow(lines[k])
  {
    seq(|lines|, k requires 0 <= k < |lines| => RiskRow(lines[k]))
  }

  /** The risks a sequence of rows yields, in row order. */
  function RisksOf(lines: seq<string>): seq<CountryRisk> {
    Somes(RiskRows(lines))
  }

  /** Every risk has a country and a score in [0,100]. */
  lemma RisksAreClamped(lines: seq<string>)
    ensures forall k :: 0 <= k < |RisksOf(lines)| ==>
      0 <= RisksOf(lines)[k].score <= 100 && RisksOf(lines)[k].country != ""
  {
    SomesKeep(RiskRows(lines), (r: CountryRisk) => 0 <= r.score <= 100 && r.country != "");
  }

  lemma RiskRowsConcat(a: seq<string>, b: seq<string>)
    ensures RiskRows(a + b) == RiskRows(a) + RiskRows(b)
  {
  }

  /** Rows contribute independently: a skipped row leaves the rows before and
      after it as they would be on their own. */
  lemma SkippedRowIsTransparent(a: seq<string>, bad: string, b: seq<string>)
    requires RiskRow(bad).None?
    ensures RisksOf(a + [bad] + b) == RisksOf(a) + RisksOf(b)
  {
    RiskRowsConcat(a, [bad]);
    RiskRowsConcat(a + [bad], b);
    assert RiskRows([bad]) == [None];
    SomesSkip(RiskRows(a), RiskRows(b));
  }

  lemma FirstPipe()
    ensures IndexOf("A|7|b|c", '|') == 1
  {
    assert "A|7|b|c"[1..] == "|7|b|c";
  }
  lemma SecondPipe()
    ensures IndexOf("7|b|c", '|') == 1
  {
    assert "7|b|c"[1..] == "|b|c";
  }
  lemma PipeSplit()
    ensures SplitN3("A|7|b|c", '|') == ["A", "7", "b|c"]
  {
    FirstPipe();
    assert "A|7|b|c"[..1] == "A";
    assert "A|7|b|c"[2..] == "7|b|c";
    SecondPipe();
    assert "7|b|c"[..1] == "7";
    assert "7|b|c"[2..] == "b|c";
  }
  lemma ScoreParsed()
    ensures Atoi("7") == Some(7)
  {
    assert "7"[..0] == "";
    assert DigitsValue("7") == 7;
  }
  /** SplitN with three parts leaves later pipes in the reason. */
  lemma ReasonKeepsPipes()
    ensures RiskRow("A|7|b|c") == Some(CountryRisk("A", 7, "b|c"))
  {
    RowCellsTrimmed();
    PipeSplit();
    ScoreParsed();
  }
  lemma RowCellsTrimmed()
    ensures TrimSpace("A|7|b|c") == "A|7|b|c"
    ensures TrimSpace("A") == "A" && TrimSpace("7") == "7" && TrimSpace("b|c") == "b|c"
  {
    TrimOfTrimmed("A|7|b|c");
    TrimOfTrimmed("A");
    TrimOfTrimmed("7");
    TrimOfTrimmed("b|c");
  }

  /** The statements of one turn of parseBriefResponse's risk loop; None
      stands for `continue`. */
  method RiskLine(text: string) returns (row: Option<CountryRisk>)
    ensures row == RiskRow(text)
  {
    var line := TrimSpace(text);
    if line == "" {
      return None;
    }
    var parts := SplitN3(line, '|');
    if |parts| < 2 {
      return None;
    }
    var country := TrimSpace(parts[0]);
    var score := Atoi(TrimSpace(parts[1]));
    if score.None? || country == "" {
      return None;
    }
    var reason := "";
    if |parts| == 3 {
      reason := TrimSpace(parts[2]);
    }
    row := Some(CountryRisk(country, Clamp(score.value, 0, 100), reason));
  }

  /** One more row adds its risk, unless it is skipped. */
  lemma RisksStep(lines: seq<string>, i: nat)
    requires i < |lines|
    ensures RisksOf(lines[..i + 1]) == RisksOf(lines[..i]) + (if RiskRow(lines[i]).Some? then [RiskRow(lines[i]).value] else [])
  {
    var rows := RiskRows(lines[..i + 1]);
    assert rows[..i] == RiskRows(lines[..i]);
    assert rows[i] == RiskRow(lines[i]);
  }

  /** The risk loop over the lines of the COUNTRY_RISKS section. */
  method RiskLoop(lines: seq<string>) returns (risks: seq<CountryRisk>)
    ensures risks == RisksOf(lines)
  {
    risks := [];
    var i := 0;
    while i < |lines|
      invariant 0 <= i <= |lines|
      invariant risks == RisksOf(lines[..i])
    {
      RisksStep(lines, i);
      var row := RiskLine(lines[i]);
      if row.Some? {
        risks := risks + [row.value];
      }
      i := i + 1;
    }
    assert lines[..i] == lines;
  }

  method ParseRisks(text: string) returns (risks: seq<CountryRisk>)
    ensures risks == RisksOf(Split(text, '\n'))
  {
    var lines := Split(text, '\n');
    risks := RiskLoop(lines);
  }

  // ---------------------------------------------------------------------------
  // parseBriefResponse
  // ---------------------------------------------------------------------------

  /** sections[name] in Go: the empty string for a missing section. */
  ghost function SectionOrEmpty(content: string, name: Section): string {
    SectionText(Split(content, '\n'), name).GetOr("")
  }

  method ParseBriefResponse(content: string) returns (summary: string, threats: seq<string>, risks: seq<CountryRisk>)
    ensures summary == SectionOrEmpty(content, Summary)
    ensures var t := Split(SectionOrEmpty(content, Threats), '\n'); threats == ThreatsOf(t)
    ensures var c := Split(SectionOrEmpty(content, CountryRisks), '\n'); risks == RisksOf(c)
  {
    var lines := Split(content, '\n');
    var sections := SplitSections(lines);
    summary := if Summary in sections then sections[Summary] else "";
    var threatText := if Threats in sections then sections[Threats] else "";
    var riskText := if CountryRisks in sections then sections[CountryRisks] else "";
    StoredSection(sections, content, Summary);
    StoredSection(sections, content, Threats);
    StoredSection(sections, content, CountryRisks);
    threats := ParseThreats(threatText);
    risks := ParseRisks(riskText);
  }

  /** Reading a section from the map, with "" for a missing one, gives
      SectionOrEmpty. */
  lemma StoredSection(sections: map<Section, string>, content: string, name: Section)
    requires Agrees(sections, Split(content, '\n'), name)
    ensures (if name in sections then sections[name] else "") == SectionOrEmpty(content, name)
  {
  }

  /** A reply without a THREATS header yields no threats, and one without a
      COUNTRY_RISKS header no risks: Split("") is [""], whose only line
      contributes nothing. */
  lemma MissingSectionIsEmpty(content: string)
    requires SectionText(Split(content, '\n'), Threats).None?
    requires SectionText(Split(content, '\n'), CountryRisks).None?
    ensures var t := Split(SectionOrEmpty(content, Threats), '\n'); ThreatsOf(t) == []
    ensures var c := Split(SectionOrEmpty(content, CountryRisks), '\n'); RisksOf(c) == []
  {
    assert SectionOrEmpty(content, Threats) == "";
    assert SectionOrEmpty(content, CountryRisks) == "";
    assert IndexOf("", '\n') < 0;
    assert Split("", '\n') == [""];
    EmptyLineContributesNothing();
  }

  lemma EmptyLineContributesNothing()
    ensures ThreatsOf([""]) == []
    ensures RisksOf([""]) == []
  {
    assert TrimSpace("") == "";
    assert CleanThreat("") == "";
    var none: seq<Option<string>> := [None];
    assert ThreatRows([""]) == none;
    assert none[..0] == [];
    var noRisk: seq<Option<CountryRisk>> := [None];
    assert RiskRows([""]) == noRisk;
    assert noRisk[..0] == [];
  }

  /** On an example with two SUMMARY: headers, SectionText keeps only the
      block after the second, trimmed, and ignores the line before the first. */
  lemma LastHeaderWins()
    ensures SectionText(["x", "SUMMARY:", "a", "SUMMARY:", " b "], Summary) == Some("b")
  {
    var lines := ["x", "SUMMARY:", "a", "SUMMARY:", " b "];
    var hs := Headers(lines);
    HeadersAt(lines, 3);
    HeadersAt(lines, 4);
    SummaryHeaderRecognised();
    SpacedWordIsNoHeader();
    LastHeaderIs(hs, Summary, 3, 5);
    NextHeaderIs(hs, 4, 5);
    assert Body(lines, 4, 5) == " b \n";
    SpacedLineTrimmed();
  }

  lemma SummaryHeaderRecognised()
    ensures HeaderOf("SUMMARY:") == Some(Summary)
  {
    TrimOfTrimmed("SUMMARY:");
  }

  lemma SpacedWordIsNoHeader()
    ensures HeaderOf(" b ") == None
  {
    assert SkipSpaces(" b ", 0) == 1;
    assert SkipSpacesBack(" b ", 1, 3) == 2;
    assert TrimSpace(" b ") == "b";
  }

  lemma SpacedLineTrimmed()
    ensures TrimSpace(" b \n") == "b"
  {
    assert SkipSpaces(" b \n", 0) == 1;
    assert SkipSpacesBack(" b \n", 1, 4) == 2;
  }

  // ---------------------------------------------------------------------------
  // parseLocalBriefResponse
  // ---------------------------------------------------------------------------

  predicate OpensSummary(line: string) {
    HasPrefix(TrimSpace(line), "SUMMARY:")
  }

  /** The first of the first `n` lines that starts (after trimming) with
      "SUMMARY:". */
  function FirstSummaryLine(lines: seq<string>, n: nat): (r: Option<nat>)
    requires n <= |lines|
    ensures r.Some? ==> r.value < n
  {
    if n == 0 then None
    else
      match FirstSummaryLine(lines, n - 1)
      case Some(f) => Some(f)
      case None => if OpensSummary(lines[n - 1]) then Some(n - 1) else None
  }

  /** FirstSummaryLine finds the first opening line, or says there is none. */
  lemma {:induction false} FirstSummaryLineIsFirst(lines: seq<string>, n: nat)
    requires n <= |lines|
    ensures var r := FirstSummaryLine(lines, n);
      && (r.Some? ==> r.value < n && OpensSummary(lines[r.value]))
      && (r.Some? ==> forall k :: 0 <= k < r.value ==> !OpensSummary(lines[k]))
      && (r.None? ==> forall k :: 0 <= k < n ==> !OpensSummary(lines[k]))
  {
    if n > 0 {
      FirstSummaryLineIsFirst(lines, n - 1);
      var prev := FirstSummaryLine(lines, n - 1);
      if prev.Some? {
        assert FirstSummaryLine(lines, n) == prev;
      } else if OpensSummary(lines[n - 1]) {
        assert FirstSummaryLine(lines, n) == Some(n - 1);
      } else {
        assert FirstSummaryLine(lines, n) == None;
      }
    }
  }

  /** The trimmed, non-empty lines in from..to-1, skipping further "SUMMARY:"
      lines. */
  function SummaryLines(lines: seq<string>, from: nat, to: nat): seq<string>
    requires to <= |lines|
  {
    if to <= from then []
    else
      var t := TrimSpace(lines[to - 1]);
      if OpensSummary(lines[to - 1]) || t == "" then SummaryLines(lines, from, to - 1)
      else SummaryLines(lines, from, to - 1) + [t]
  }

  /** A line parseLocalBriefResponse collects: non-empty, trimmed, no header. */
  predicate IsSummaryText(s: string) {
    s != "" && IsTrimmed(s) && !HasPrefix(s, "SUMMARY:")
  }

  /** Every collected summary line is non-empty, trimmed and no header. */
  lemma {:induction false} SummaryLinesAreClean(lines: seq<string>, from: nat, to: nat)
    requires to <= |lines|
    ensures forall k :: 0 <= k < |SummaryLines(lines, from, to)| ==> IsSummaryText(SummaryLines(lines, from, to)[k])
  {
    if from < to {
      var prev := SummaryLines(lines, from, to - 1);
      var t := TrimSpace(lines[to - 1]);
      SummaryLinesAreClean(lines, from, to - 1);
      if !(OpensSummary(lines[to - 1]) || t == "") {
        TrimSpaceIsTrimmed(lines[to - 1]);
        assert IsSummaryText(t);
        var ss := prev + [t];
        assert SummaryLines(lines, from, to) == ss;
        forall k | 0 <= k < |ss| ensures IsSummaryText(ss[k]) {
          if k < |prev| {
            assert ss[k] == prev[k];
          }
        }
      }
    }
  }

  /** parseLocalBriefResponse's result as a value. */
  ghost function LocalSummary(content: string): string {
    var lines := Split(content, '\n');
    match FirstSummaryLine(lines, |lines|)
    case None => TrimSpace(content)
    case Some(f) =>
      var ss := SummaryLines(lines, f + 1, |lines|);
      if |ss| > 0 then Join(ss, " ") else TrimSpace(content)
  }

  /** The state of parseLocalBriefResponse's loop after the first `i` lines. */
  ghost predicate LocalScanned(lines: seq<string>, inSummary: bool, summaryLines: seq<string>, i: nat) {
    && i <= |lines|
    && (inSummary <==> FirstSummaryLine(lines, i).Some?)
    && (!inSummary ==> summaryLines == [])
    && (inSummary ==> summaryLines == SummaryLines(lines, FirstSummaryLine(lines, i).value + 1, i))
  }

  /** One turn of parseLocalBriefResponse's loop keeps LocalScanned. */
  lemma LocalStep(lines: seq<string>, inSummary: bool, summaryLines: seq<string>, i: nat,
                  inSummary': bool, summaryLines': seq<string>)
    requires LocalScanned(lines, inSummary, summaryLines, i) && i < |lines|
    requires OpensSummary(lines[i]) ==> inSummary' && summaryLines' == summaryLines
    requires !OpensSummary(lines[i]) ==> inSummary' == inSummary
    requires !OpensSummary(lines[i]) && inSummary && TrimSpace(lines[i]) != "" ==>
      summaryLines' == summaryLines + [TrimSpace(lines[i])]
    requires !OpensSummary(lines[i]) && !(inSummary && TrimSpace(lines[i]) != "") ==>
      summaryLines' == summaryLines
    ensures LocalScanned(lines, inSummary', summaryLines', i + 1)
  {
  }

  /** After the last line the collected lines decide the result. */
  lemma LocalResult(content: string, inSummary: bool, summaryLines: seq<string>)
    requires LocalScanned(Split(content, '\n'), inSummary, summaryLines, |Split(content, '\n')|)
    ensures LocalSummary(content) == if |summaryLines| > 0 then Join(summaryLines, " ") else TrimSpace(content)
  {
  }

  /** The local summary never has whitespace at either end. */
  lemma LocalSummaryIsTrimmed(content: string)
    ensures IsTrimmed(LocalSummary(content))
  {
    var lines := Split(content, '\n');
    TrimSpaceIsTrimmed(content);
    var first := FirstSummaryLine(lines, |lines|);
    if first.Some? {
      var ss := SummaryLines(lines, first.value + 1, |lines|);
      if |ss| > 0 {
        SummaryLinesAreClean(lines, first.value + 1, |lines|);
        JoinEnds(ss, " ");
      }
    }
  }

  /** One turn of parseLocalBriefResponse's loop: a "SUMMARY:" line opens the
      summary, any other non-empty line inside it is collected trimmed. */
  method LocalLine(lines: seq<string>, i: nat, inSummary: bool, summaryLines: seq<string>)
    returns (inSummary': bool, summaryLines': seq<string>)
    requires LocalScanned(lines, inSummary, summaryLines, i) && i < |lines|
    ensures LocalScanned(lines, inSummary', summaryLines', i + 1)
  {
    var trimmed := TrimSpace(lines[i]);
    inSummary', summaryLines' := inSummary, summaryLines;
    if HasPrefix(trimmed, "SUMMARY:") {
      inSummary' := true;
    } else if inSummary && trimmed != "" {
      summaryLines' := summaryLines + [trimmed];
    }
    LocalStep(lines, inSummary, summaryLines, i, inSummary', summaryLines');
  }

  /** After the loop: the collected lines joined by spaces, or the whole
      trimmed response when none were collected. */
  method LocalFinish(content: string, summaryLines: seq<string>, ghost inSummary: bool) returns (summary: string)
    requires LocalScanned(Split(content, '\n'), inSummary, summaryLines, |Split(content, '\n')|)
    ensures summary == LocalSummary(content)
    ensures IsTrimmed(summary)
  {
    if |summaryLines| > 0 {
      summary := Join(summaryLines, " ");
    } else {
      summary := TrimSpace(content);
    }
    LocalResult(content, inSummary, summaryLines);
    LocalSummaryIsTrimmed(content);
  }

  /** The line loop of parseLocalBriefResponse. */
  method LocalLoop(lines: seq<string>) returns (inSummary: bool, summaryLines: seq<string>)
    ensures LocalScanned(lines, inSummary, summaryLines, |lines|)
  {
    inSummary := false;
    summaryLines := [];
    var i := 0;
    while i < |lines|
      invariant LocalScanned(lines, inSummary, summaryLines, i)
    {
      inSummary, summaryLines := LocalLine(lines, i, inSummary, summaryLines);
      i := i + 1;
    }
  }

  method ParseLocalBriefResponse(content: string) returns (summary: string)
    ensures summary == LocalSummary(content)
    ensures IsTrimmed(summary)
  {
    var lines := Split(content, '\n');
    var inSummary, summaryLines := LocalLoop(lines);
    summary := LocalFinish(content, summaryLines, inSummary);
  }

  // ---------------------------------------------------------------------------
  // GenerateBrief
  // ---------------------------------------------------------------------------

  const NoKeySummary: string :=
    "No GROQ_API_KEY set. Add it to ~/.config/watchtower/config.yaml to enable AI briefings."
  const NoItemsSummary: string := "No news items available to summarize."
  const HeadlineLimit: nat := 40

  /** What the HTTP exchange with the chat-completions service produced. */
  datatype Reply =
    | RequestFailed(cause: string)
    | Response(status: int, decoded: Result<Completion, string>)

  /** The decoded response body: the message contents of the choices, and the
      model name. */
  datatype Completion = Completion(choices: seq<string>, model: string)

  /** The early-return decision of GenerateBrief: a placeholder brief, or the
      headlines to put in the prompt. */
  datatype Plan = Placeholder(brief: Brief) | Ask(headlines: seq<Feeds.NewsItem>)

  function PlanBrief(apiKey: string, items: seq<Feeds.NewsItem>, now: int): (p: Plan)
    ensures apiKey == "" ==> p == Placeholder(Brief(NoKeySummary, [], [], now, "none"))
    ensures apiKey != "" && items == [] ==> p == Placeholder(Brief(NoItemsSummary, [], [], now, ""))
    ensures apiKey != "" && items != [] ==>
      && p.Ask?
      && |p.headlines| == (if |items| < HeadlineLimit then |items| else HeadlineLimit)
      && p.headlines == items[..|p.headlines|]
  {
    if apiKey == "" then Placeholder(Brief(NoKeySummary, [], [], now, "none"))
    else if |items| == 0 then Placeholder(Brief(NoItemsSummary, [], [], now, ""))
    else
      var limit := if |items| < HeadlineLimit then |items| else HeadlineLimit;
      Ask(items[..limit])
  }

  /** GenerateBrief with the network exchange supplied as `reply`. */
  method GenerateBrief(apiKey: string, items: seq<Feeds.NewsItem>, reply: Reply, now: int)
    returns (r: Result<Brief, string>)
    ensures PlanBrief(apiKey, items, now).Placeholder? ==> r == Ok(PlanBrief(apiKey, items, now).brief)
    ensures PlanBrief(apiKey, items, now).Ask? ==>
      match reply
      case RequestFailed(cause) => r == Err("groq request failed: " + cause)
      case Response(status, decoded) =>
        if status != 200 then r == Err("groq HTTP " + IntToString(status))
        else if decoded.Err? then r == Err("decoding groq response: " + decoded.error)
        else if |decoded.value.choices| == 0 then r == Err("no response from groq")
        else
          var content := decoded.value.choices[0];
          var t := Split(SectionOrEmpty(content, Threats), '\n');
          var c := Split(SectionOrEmpty(content, CountryRisks), '\n');
          r == Ok(Brief(SectionOrEmpty(content, Summary), ThreatsOf(t), RisksOf(c), now, decoded.value.model))
  {
    var plan := PlanBrief(apiKey, items, now);
    if plan.Placeholder? {
      return Ok(plan.brief);
    }
    match reply {
      case RequestFailed(cause) =>
        r := Err("groq request failed: " + cause);
      case Response(status, decoded) =>
        if status != 200 {
          r := Err("groq HTTP " + IntToString(status));
        } else if decoded.Err? {
          r := Err("decoding groq response: " + decoded.error);
        } else if |decoded.value.choices| == 0 {
          r := Err("no response from groq");
        } else {
          var summary, threats, risks := ParseBriefResponse(decoded.value.choices[0]);
          r := Ok(Brief(summary, threats, risks, now, decoded.value.model));
        }
    }
  }
}
