/** What migrating a configuration text does to its lines, its version and its meaning. */
module MigrationTheorems {
  import opened Results
  import opened Text
  import opened ConfigParser
  import opened ConfigMigrator

  // ---------------------------------------------------------------------------------------
  // Lines

  /** A [meta] section is open before line k. */
  ghost predicate MetaOpen(lines: seq<string>, k: nat) {
    k > 0 && InMeta(lines, k - 1)
  }

  lemma InMetaStep(lines: seq<string>, k: nat)
    requires k < |lines|
    ensures InMeta(lines, k) <==> IsMetaHeader(lines[k]) || (MetaOpen(lines, k) && !IsHeader(Trim(lines[k])))
  {
    if IsMetaHeader(lines[k]) {
      assert OpensMeta(lines, k, k);
    }
    if MetaOpen(lines, k) && !IsHeader(Trim(lines[k])) {
      var h :| OpensMeta(lines, h, k - 1);
      assert OpensMeta(lines, h, k);
    }
    if InMeta(lines, k) && !IsMetaHeader(lines[k]) {
      var h :| OpensMeta(lines, h, k);
      assert OpensMeta(lines, h, k - 1);
    }
  }

  lemma {:induction false} KeepIsKept(lines: seq<string>, k: nat)
    requires k <= |lines|
    ensures Kept(lines, k) + Keep(MetaOpen(lines, k), lines[k..]) == Kept(lines, |lines|)
    decreases |lines| - k
  {
    if k < |lines| {
      KeepIsKept(lines, k + 1);
      InMetaStep(lines, k);
      assert lines[k..][1..] == lines[k + 1..];
    }
  }

  lemma {:induction false} KeptAreLines(lines: seq<string>, k: nat)
    requires AreLines(lines) && k <= |lines|
    ensures AreLines(Kept(lines, k))
  {
    if k > 0 {
      KeptAreLines(lines, k - 1);
    }
  }

  /** The lines of the upgraded text are the fixed header and then, in order and verbatim, exactly
      the original lines outside exact [meta] sections. */
  lemma UpgradedLines(content: string)
    ensures Lines(Upgraded(content)) == HEADER + Kept(Lines(content), |Lines(content)|)
  {
    var lines := Lines(content);
    var kept := Kept(lines, |lines|);
    LinesAreLines(content);
    KeptAreLines(lines, |lines|);
    KeepIsKept(lines, 0);
    assert lines[0..] == lines && [] + Keep(false, lines) == Keep(false, lines);
    UnlinesAppend(HEADER, kept);
    HeaderLines();
    LinesOfUnlines(HEADER + kept);
  }

  /** A title comment, the [meta] header, the version line and a blank line. */
  predicate IsVersionHeader(header: seq<string>) {
    && |header| == 4
    && Trim(header[0]) != "" && Trim(header[0])[0] == '#' && !IsVersionComment(Trim(header[0]))
    && Trim(header[1]) == "[meta]"
    && Trim(header[2]) == "version = 1"
    && Trim(header[3]) == ""
  }

  lemma HeaderLines()
    ensures AreLines(HEADER) && IsVersionHeader(HEADER)
  {
    TitleIsLine();
    TitleIsPlain(TITLE);
    assert IsLine("[meta]") && IsLine("version = 1");
    TrimOfTight("[meta]");
    TrimOfTight("version = 1");
  }

  lemma TitleIsLine()
    ensures IsLine(TITLE) && |TITLE| == 44 && TITLE[0] == '#' && TITLE[2] == 'L' && TITLE[43] == ')'
  {
  }

  lemma TitleIsPlain(title: string)
    requires |title| == 44 && title[0] == '#' && title[2] == 'L' && title[43] == ')'
    ensures Trim(title) == title && !IsVersionComment(title)
  {
    TrimOfTight(title);
    assert "# version:"[2] == 'v' && "# Version:"[2] == 'V';
  }

  // ---------------------------------------------------------------------------------------
  // Version

  lemma VersionLineParts()
    ensures Find("version = 1", '=') == 8
    ensures LineKey("version = 1") == "version"
    ensures Trim("version = 1"[9..]) == "1"
    ensures Stoul("1") == Some(1)
  {
    FindIs("version = 1", '=', 8);
    VersionLineKey();
    VersionLineValue();
  }

  lemma VersionLineKey()
    requires Find("version = 1", '=') == 8
    ensures LineKey("version = 1") == "version"
  {
    assert "version = 1"[..8] == "version ";
    assert TrimLeft("version ") == "version ";
    assert "version "[..7] == "version";
    assert TrimRight("version") == "version";
  }

  lemma VersionLineValue()
    ensures Trim("version = 1"[9..]) == "1"
    ensures Stoul("1") == Some(1)
  {
    assert "version = 1"[9..] == " 1";
    assert " 1"[1..] == "1";
    assert TrimRight("1") == "1";
    assert DigitsFrom("1", 0) == 1 by {
      assert "1"[1..] == "";
    }
  }

  lemma NoVersionComment(t: string)
    requires |t| > 0 && t[0] == 'v'
    ensures !IsVersionComment(t)
  {
    assert "# version:"[0] == '#' && "# Version:"[0] == '#';
    assert |t| >= 10 ==> t[..10][0] == 'v';
  }

  lemma VersionLineVerdict(line: string)
    requires Trim(line) == "version = 1"
    ensures Verdict("meta", line) == Some(1)
  {
    var t := Trim(line);
    VersionLineParts();
    assert t[0] == 'v' && t[10] == '1';
    NoVersionComment(t);
    assert Find(t, '=') == 8 && LineKey(t) == "version" && Trim(t[9..]) == "1";
  }

  lemma MetaHeaderName()
    ensures IsHeader("[meta]") && HeaderName("[meta]") == "meta" && !IsVersionComment("[meta]")
  {
  }

  lemma VersionThird(verdicts: seq<Option<nat>>)
    requires |verdicts| > 2 && verdicts[0] == None && verdicts[1] == None && verdicts[2] == Some(1)
    ensures VersionFrom(verdicts, 0) == 1
  {
    assert VersionFrom(verdicts, 2) == 1;
    assert VersionFrom(verdicts, 1) == 1;
  }

  lemma HeaderVerdicts(header: seq<string>, rest: seq<string>)
    requires IsVersionHeader(header)
    ensures VersionFrom(Verdicts(header + rest), 0) == 1
    ensures HeaderDecides(Verdicts(header + rest)) && SectionAt(header + rest, 4) == "meta"
  {
    var lines := header + rest;
    assert lines[0] == header[0] && lines[1] == header[1] && lines[2] == header[2];
    MetaHeaderName();
    VersionLineVerdict(lines[2]);
    assert SectionAt(lines, 0) == "";
    assert !IsHeader(Trim(lines[0]));
    assert SectionAt(lines, 1) == "" && SectionAt(lines, 2) == "meta";
    assert lines[3] == header[3] && !IsHeader("version = 1");
    assert SectionAt(lines, 3) == "meta" && SectionAt(lines, 4) == "meta";
    var verdicts := Verdicts(lines);
    BlankDecidesNothing("meta", lines[3]);
    assert verdicts[0] == None && verdicts[1] == None && verdicts[2] == Some(1) && verdicts[3] == None;
    VersionThird(verdicts);
  }

  /** Of the four header lines only the third decides, for version 1. */
  predicate HeaderDecides(verdicts: seq<Option<nat>>) {
    |verdicts| >= 4 && verdicts[0] == None && verdicts[1] == None && verdicts[2] == Some(1) && verdicts[3] == None
  }

  lemma BlankDecidesNothing(section: string, line: string)
    requires Trim(line) == ""
    ensures Verdict(section, line) == None
  {
  }

  /** Every upgraded text has version 1, whatever version lines the original still carries. */
  lemma UpgradedVersion(content: string)
    ensures Version(Upgraded(content)) == 1
  {
    var header, kept := HEADER, Kept(Lines(content), |Lines(content)|);
    UpgradedLines(content);
    HeaderLines();
    HeaderVerdicts(header, kept);
  }

  // ---------------------------------------------------------------------------------------
  // Version lines that stay

  function SectionAfter(section: string, line: string): string {
    if IsHeader(Trim(line)) then HeaderName(Trim(line)) else section
  }

  /** Some line decides a version where it stands. */
  predicate Decides(section: string, lines: seq<string>)
    decreases |lines|
  {
    lines != [] && (Verdict(section, lines[0]).Some? || Decides(SectionAfter(section, lines[0]), lines[1..]))
  }

  /** Some line outside exact [meta] sections does. */
  predicate KeptDecides(inMeta: bool, section: string, lines: seq<string>)
    decreases |lines|
  {
    lines != [] &&
    var inMeta' := IsMetaHeader(lines[0]) || (inMeta && !IsHeader(Trim(lines[0])));
    (!inMeta' && Verdict(section, lines[0]).Some?) || KeptDecides(inMeta', SectionAfter(section, lines[0]), lines[1..])
  }

  predicate DecidedFrom(verdicts: seq<Option<nat>>, k: nat) {
    exists j :: k <= j < |verdicts| && verdicts[j].Some?
  }

  lemma DecidedStep(verdicts: seq<Option<nat>>, k: nat)
    requires k < |verdicts|
    ensures DecidedFrom(verdicts, k) <==> verdicts[k].Some? || DecidedFrom(verdicts, k + 1)
  {
  }

  lemma {:induction false} DecidesMeans(lines: seq<string>, verdicts: seq<Option<nat>>, k: nat)
    requires k <= |lines| && verdicts == Verdicts(lines)
    ensures Decides(SectionAt(lines, k), lines[k..]) <==> DecidedFrom(verdicts, k)
    decreases |lines| - k
  {
    if k < |lines| {
      DecidesMeans(lines, verdicts, k + 1);
      assert lines[k..][1..] == lines[k + 1..];
      DecidedStep(verdicts, k);
    }
  }

  ghost predicate KeptDecidedFrom(lines: seq<string>, verdicts: seq<Option<nat>>, k: nat) {
    exists j: nat :: k <= j < |verdicts| && StaysAndDecides(lines, verdicts, j)
  }

  ghost predicate StaysAndDecides(lines: seq<string>, verdicts: seq<Option<nat>>, j: nat)
    requires j < |verdicts|
  {
    verdicts[j].Some? && !InMeta(lines, j)
  }

  lemma KeptDecidedStep(lines: seq<string>, verdicts: seq<Option<nat>>, k: nat)
    requires k < |verdicts|
    ensures KeptDecidedFrom(lines, verdicts, k) <==>
              (verdicts[k].Some? && !InMeta(lines, k)) || KeptDecidedFrom(lines, verdicts, k + 1)
  {
    assert StaysAndDecides(lines, verdicts, k) <==> verdicts[k].Some? && !InMeta(lines, k);
  }

  lemma {:induction false} KeptDecidesMeans(lines: seq<string>, verdicts: seq<Option<nat>>, k: nat)
    requires k <= |lines| && verdicts == Verdicts(lines)
    ensures KeptDecides(MetaOpen(lines, k), SectionAt(lines, k), lines[k..]) <==> KeptDecidedFrom(lines, verdicts, k)
    decreases |lines| - k
  {
    if k < |lines| {
      KeptDecidesMeans(lines, verdicts, k + 1);
      InMetaStep(lines, k);
      assert lines[k..][1..] == lines[k + 1..];
      KeptDecidedStep(lines, verdicts, k);
      assert MetaOpen(lines, k + 1) == InMeta(lines, k);
    }
  }

  /** A kept line decides among the kept lines exactly when it does among all. */
  lemma {:induction false} KeepDecides(inMeta: bool, section: string, section': string, lines: seq<string>)
    requires !inMeta ==> VersionSection(section) == VersionSection(section')
    ensures Decides(section', Keep(inMeta, lines)) <==> KeptDecides(inMeta, section, lines)
    decreases |lines|
  {
    if lines != [] {
      var line, rest := lines[0], lines[1..];
      var inMeta' := IsMetaHeader(line) || (inMeta && !IsHeader(Trim(line)));
      if inMeta' {
        assert Keep(inMeta, lines) == Keep(inMeta', rest);
        KeepDecides(inMeta', SectionAfter(section, line), section', rest);
      } else {
        assert Keep(inMeta, lines)[0] == line && Keep(inMeta, lines)[1..] == Keep(inMeta', rest);
        KeepDecides(inMeta', SectionAfter(section, line), SectionAfter(section', line), rest);
      }
    }
  }

  /** The version line of the new header, and no other line, decides. */
  predicate OnlyThird(verdicts: seq<Option<nat>>) {
    forall k :: 0 <= k < |verdicts| && verdicts[k].Some? ==> k == 2
  }

  lemma OnlyThirdMeans(verdicts: seq<Option<nat>>)
    requires HeaderDecides(verdicts)
    ensures OnlyThird(verdicts) <==> !DecidedFrom(verdicts, 4)
  {
  }

  /** The text has one version line that decides: that of the new header. */
  ghost predicate OneDecides(lines: seq<string>) {
    OnlyThird(Verdicts(lines))
  }

  /** An upgraded text has no second deciding version line if and only if every deciding line of the
      original stands in an exact [meta] section. */
  lemma OneVersionLine(content: string)
    ensures var lines := Lines(content);
            OneDecides(Lines(Upgraded(content))) <==>
              forall k: nat :: k < |lines| && Verdicts(lines)[k].Some? ==> InMeta(lines, k)
  {
    var lines := Lines(content);
    var verdicts := Verdicts(lines);
    var kept := Kept(lines, |lines|);
    var all := HEADER + kept;
    UpgradedLines(content);
    HeaderLines();
    HeaderVerdicts(HEADER, kept);
    DecidesMeans(all, Verdicts(all), 4);
    OnlyThirdMeans(Verdicts(all));
    assert all[4..] == kept;
    KeepIsKept(lines, 0);
    assert lines[0..] == lines && [] + Keep(false, lines) == Keep(false, lines);
    KeepDecides(false, "", "meta", lines);
    KeptDecidesMeans(lines, verdicts, 0);
    assert forall k: nat :: k < |lines| ==>
        (StaysAndDecides(lines, verdicts, k) <==> verdicts[k].Some? && !InMeta(lines, k));
  }

  /** The text "version = 0" has version 0, and its upgrade two deciding lines. */
  lemma AVersionLineStays()
    ensures Version("version = 0\n") == 0 && !OneDecides(Lines(Upgraded("version = 0\n")))
  {
    var line := "version = 0";
    var content := line + "\n";
    assert content == Unlines([line]) by {
      assert [line][1..] == [] && Unlines([]) == "";
    }
    assert AreLines([line]);
    LinesOfUnlines([line]);
    VersionZeroVerdict(line);
    var verdicts := Verdicts(Lines(content));
    assert verdicts[0] == Some(0) && !InMeta([line], 0);
    OneVersionLine(content);
    assert "version = 0\n" == content;
  }

  lemma VersionZeroVerdict(line: string)
    requires line == "version = 0"
    ensures Verdict("", line) == Some(0) && !IsMetaHeader(line)
  {
    TrimOfTight(line);
    FindIs(line, '=', 8);
    NoVersionComment(line);
    VersionZeroKey();
    VersionZeroValue();
    assert line[..8] == "version " && line[9..] == " 0";
  }

  lemma VersionZeroKey()
    ensures Trim("version ") == "version"
  {
    assert "version "[..7] == "version";
    TrimOfTight("version");
  }

  lemma VersionZeroValue()
    ensures Trim(" 0") == "0" && Stoul("0") == Some(0)
  {
    assert " 0"[1..] == "0" && "0"[1..] == "";
    TrimOfTight("0");
  }

  /** Migrating a migrated text returns it byte for byte. */
  lemma MigrationIsIdempotent(content: string, target: nat)
    ensures var r := Migrated(content, target);
            r.Success? ==> Version(r.value) == target && Migrated(r.value, target) == r
  {
    UpgradedVersion(content);
  }

  /** A migration is possible exactly when nothing has to change or version 0 becomes version 1. */
  lemma MigrationDomain(content: string, target: nat)
    ensures Migrated(content, target).Success? <==>
              Version(content) == target || (Version(content) == 0 && target == 1)
    ensures Migrated(content, target).Failure? ==> Migrated(content, target).code == ConfigSchemaInvalid
    ensures Version(content) == 0 ==> Migrated(content, 1) == Success(Upgraded(content))
  {
  }

  // ---------------------------------------------------------------------------------------
  // Meaning

  /** A line the parser accepts in a section without keys. */
  predicate WellFormed(line: string) {
    var t := Trim(line);
    IsSkipped(t) || IsHeader(t) || Find(t, '=') < |t|
  }

  /** Every line the migration drops is one the parser would have accepted. */
  ghost predicate DroppedAreWellFormed(lines: seq<string>) {
    forall k :: 0 <= k < |lines| && InMeta(lines, k) ==> WellFormed(lines[k])
  }

  predicate DroppedOk(inMeta: bool, lines: seq<string>)
    decreases |lines|
  {
    lines == [] ||
    var inMeta' := IsMetaHeader(lines[0]) || (inMeta && !IsHeader(Trim(lines[0])));
    (inMeta' ==> WellFormed(lines[0])) && DroppedOk(inMeta', lines[1..])
  }

  lemma {:induction false} DroppedOkMeans(lines: seq<string>, k: nat)
    requires k <= |lines|
    ensures DroppedOk(MetaOpen(lines, k), lines[k..]) <==>
              forall j :: k <= j < |lines| && InMeta(lines, j) ==> WellFormed(lines[j])
    decreases |lines| - k
  {
    if k < |lines| {
      InMetaStep(lines, k);
      DroppedOkMeans(lines, k + 1);
      assert lines[k..][1..] == lines[k + 1..];
      assert MetaOpen(lines, k + 1) == InMeta(lines, k);
    }
  }

  lemma MetaSectionIsInert()
    ensures Lower(Trim("meta")) == "meta" && !KnownSection("meta") && !KnownSection("")
  {
    TrimOfTight("meta");
    assert Lower("meta") == "meta";
  }

  /** One line read in two states that agree except, perhaps, on which keyless section is open. */
  lemma ReadInInertSection(config: LddmConfig, section: string, line: string)
    requires !KnownSection(section) && !IsHeader(Trim(line))
    ensures ParseLine(State(config, section), line) ==
              if WellFormed(line) then Success(State(config, section)) else Failure(ConfigParseSyntaxError)
  {
    var t := Trim(line);
    if !IsSkipped(t) && Find(t, '=') < |t| {
      UnknownSectionsAreInert(config, section, LineKey(t), LineValue(t));
    }
  }

  ghost predicate SameOutlook(inMeta: bool, section: string, section': string) {
    if inMeta then !KnownSection(section)
    else section == section' || (!KnownSection(section) && !KnownSection(section'))
  }

  /** The parser over all lines against the parser over the kept lines. */
  lemma {:induction false} KeptLinesMeanTheSame(
    config: LddmConfig, section: string, section': string, inMeta: bool, lines: seq<string>)
    requires SameOutlook(inMeta, section, section')
    ensures DroppedOk(inMeta, lines) ==>
              ParseLines(State(config, section), lines) == ParseLines(State(config, section'), Keep(inMeta, lines))
    ensures ParseLines(State(config, section), lines).Success? ==> DroppedOk(inMeta, lines)
    decreases |lines|
  {
    if lines == [] {
      return;
    }
    var line, rest := lines[0], lines[1..];
    var t := Trim(line);
    var inMeta' := IsMetaHeader(line) || (inMeta && !IsHeader(t));
    assert inMeta' ==> Keep(inMeta, lines) == Keep(inMeta', rest);
    assert !inMeta' ==> Keep(inMeta, lines)[0] == line && Keep(inMeta, lines)[1..] == Keep(inMeta', rest);
    if IsHeader(t) {
      MetaSectionIsInert();
      var entered := Lower(Trim(HeaderName(t)));
      KeptLinesMeanTheSame(config, entered, if inMeta' then section' else entered, inMeta', rest);
    } else if !KnownSection(section) {
      ReadInInertSection(config, section, line);
      if !inMeta {
        ReadInInertSection(config, section', line);
      }
      KeptLinesMeanTheSame(config, section, section', inMeta', rest);
    } else {
      var next := ParseLine(State(config, section), line);
      if next.Success? {
        KeptLinesMeanTheSame(next.value.config, section, section, inMeta', rest);
      }
    }
  }

  lemma ParseStep(st: State, line: string, st': State, rest: seq<string>)
    requires ParseLine(st, line) == Success(st')
    ensures ParseLines(st, [line] + rest) == ParseLines(st', rest)
  {
    assert ([line] + rest)[1..] == rest;
  }

  lemma MetaHeaderLine(st: State, line: string)
    requires Trim(line) == "[meta]"
    ensures ParseLine(st, line) == Success(State(st.config, "meta"))
  {
    MetaSectionIsInert();
    MetaHeaderName();
  }

  lemma VersionLineInMeta(config: LddmConfig, line: string)
    requires Trim(line) == "version = 1"
    ensures ParseLine(State(config, "meta"), line) == Success(State(config, "meta"))
  {
    MetaSectionIsInert();
    VersionLineParts();
    assert !IsHeader("version = 1");
    ReadInInertSection(config, "meta", line);
  }

  lemma HeaderMeansNothing(header: seq<string>, base: LddmConfig, rest: seq<string>)
    requires IsVersionHeader(header)
    ensures ParseLines(State(base, ""), header + rest) == ParseLines(State(base, "meta"), rest)
  {
    var a, b, c, d := header[0], header[1], header[2], header[3];
    var meta := State(base, "meta");
    assert header + rest == [a] + ([b] + ([c] + ([d] + rest)));
    MetaHeaderLine(State(base, ""), b);
    VersionLineInMeta(base, c);
    ParseStep(meta, d, meta, rest);
    ParseStep(meta, c, meta, [d] + rest);
    ParseStep(State(base, ""), b, meta, [c] + ([d] + rest));
    ParseStep(State(base, ""), a, State(base, ""), [b] + ([c] + ([d] + rest)));
  }

  /** The upgraded text read over a base: the kept lines read with the [meta] section open. */
  lemma UpgradedMeaning(content: string, base: LddmConfig)
    ensures Parse(Upgraded(content), base) == ParseLines(State(base, "meta"), Keep(false, Lines(content)))
  {
    var lines, header := Lines(content), HEADER;
    UpgradedLines(content);
    KeepIsKept(lines, 0);
    assert lines[0..] == lines && [] + Keep(false, lines) == Keep(false, lines);
    HeaderLines();
    HeaderMeansNothing(header, base, Keep(false, lines));
  }

  /** Migration preserves meaning, exactly: when the dropped lines are well formed, the upgraded text
      means the same over every base configuration, failures included; when one is not, the original
      does not parse at all. */
  lemma MigrationPreservesMeaning(content: string, base: LddmConfig)
    ensures DroppedAreWellFormed(Lines(content)) ==> Parse(Upgraded(content), base) == Parse(content, base)
    ensures !DroppedAreWellFormed(Lines(content)) ==> Parse(content, base).Failure?
  {
    var lines := Lines(content);
    assert lines[0..] == lines;
    UpgradedMeaning(content, base);
    MetaSectionIsInert();
    KeptLinesMeanTheSame(base, "", "meta", false, lines);
    DroppedOkMeans(lines, 0);
  }

  /** The promise made to users: a version 0 text that parses keeps its configuration. */
  lemma MigrationKeepsSettings(content: string, base: LddmConfig)
    requires Version(content) == 0 && Parse(content, base).Success?
    ensures Migrated(content, CURRENT_CONFIG_VERSION).Success?
    ensures Parse(Migrated(content, CURRENT_CONFIG_VERSION).value, base) == Parse(content, base)
  {
    MigrationPreservesMeaning(content, base);
  }

  /** A text whose only fault is inside a dropped [meta] section does not parse; its migration does. */
  lemma MigrationCanRepair(content: string, base: LddmConfig)
    requires Lines(content) == ["[meta]", "x"]
    ensures Parse(content, base) == Failure(ConfigParseSyntaxError)
    ensures Parse(Upgraded(content), base) == Success(base)
  {
    TrimOfTight("[meta]");
    TrimOfTight("x");
    FindIs("x", '=', 1);
    MetaHeaderLine(State(base, ""), "[meta]");
    MetaHeaderName();
    ParseStep(State(base, ""), "[meta]", State(base, "meta"), ["x"]);
    assert ParseLine(State(base, "meta"), "x") == Failure(ConfigParseSyntaxError);
    assert ["[meta]"] + ["x"] == ["[meta]", "x"];
    KeptNothing();
    UpgradedMeaning(content, base);
  }

  /** There is such a text, so the equality of meanings cannot be extended to every failure. */
  lemma SomeFailureIsRepaired(base: LddmConfig) returns (content: string)
    ensures Parse(content, base).Failure? && Parse(Upgraded(content), base) == Success(base)
  {
    var lines := ["[meta]", "x"];
    assert IsLine("[meta]") && IsLine("x");
    assert AreLines(lines);
    content := Unlines(lines);
    LinesOfUnlines(lines);
    MigrationCanRepair(content, base);
  }

  lemma KeptNothing()
    ensures Keep(false, ["[meta]", "x"]) == []
  {
    TrimOfTight("[meta]");
    TrimOfTight("x");
    MetaHeaderName();
    assert ["[meta]", "x"][1..] == ["x"];
    assert Keep(true, ["x"]) == [];
  }
}
