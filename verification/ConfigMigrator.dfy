/** Schema versions of configuration texts and the migration from version 0 to version 1. */
module ConfigMigrator {
  import opened Results
  import opened Text
  import opened ConfigParser

  const CURRENT_CONFIG_VERSION: nat := 1

  // ---------------------------------------------------------------------------------------
  // Version detection

  predicate IsVersionComment(trimmed: string) {
    StartsWith(trimmed, "# version:") || StartsWith(trimmed, "# Version:")
  }

  predicate VersionSection(section: string) {
    section == "" || section == "meta" || section == "core"
  }

  /** The version one line settles, when it stands in the given section. */
  function Verdict(section: string, line: string): Option<nat> {
    var trimmed := Trim(line);
    if IsVersionComment(trimmed) then
      match Stoul(Trim(trimmed[10..]))
      case Some(v) => Some(v % UINT32_LIMIT)
      case None => None
    else if IsSkipped(trimmed) || IsHeader(trimmed) || Find(trimmed, '=') == |trimmed| then None
    else if LineKey(trimmed) == "version" && VersionSection(section) then
      match Stoul(Trim(trimmed[Find(trimmed, '=') + 1..]))
      case Some(v) => Some(v % UINT32_LIMIT)
      case None => Some(0)
    else None
  }

  /** Which lines settle a version, and which one: a version comment with a number in it; and a key `version`
      before any section or in [meta] or [core], where what is no number counts as 0. */
  lemma DecidingLines(section: string, line: string)
    ensures var t := Trim(line);
            var comment := "# version:" <= t || "# Version:" <= t;
            var setting := t != "" && t[0] != '#' && t[0] != ';' && !(t[0] == '[' && t[|t| - 1] == ']') && '=' in t;
            && (comment ==> Verdict(section, line) == VersionNumber(t[10..]))
            && (setting && Trim(t[..Find(t, '=')]) == "version" && section in {"", "meta", "core"} ==>
                  Verdict(section, line) ==
                    var v := VersionNumber(t[Find(t, '=') + 1..]); if v.Some? then v else Some(0))
            && (!comment && !(setting && Trim(t[..Find(t, '=')]) == "version" && section in {"", "meta", "core"}) ==>
                  Verdict(section, line) == None)
  {
    var t := Trim(line);
    if '=' in t {
      var i :| 0 <= i < |t| && t[i] == '=';
      assert Find(t, '=') <= i;
    }
    assert "# version:"[0] == '#' && "# Version:"[0] == '#';
  }

  /** The number a text begins with, cut to 32 bits. */
  ghost function VersionNumber(text: string): Option<nat> {
    match Stoul(Trim(text))
    case Some(v) => Some(v % 0x1_0000_0000)
    case None => None
  }

  /** The section in force before line k: the name of the last header above it, taken literally. */
  function SectionAt(lines: seq<string>, k: nat): string
    requires k <= |lines|
  {
    if k == 0 then ""
    else if IsHeader(Trim(lines[k - 1])) then HeaderName(Trim(lines[k - 1]))
    else SectionAt(lines, k - 1)
  }

  /** The verdict of every line where it stands. */
  function Verdicts(lines: seq<string>): (r: seq<Option<nat>>)
    ensures |r| == |lines| && forall k :: 0 <= k < |r| ==> r[k] == Verdict(SectionAt(lines, k), lines[k])
  {
    seq(|lines|, k requires 0 <= k < |lines| => Verdict(SectionAt(lines, k), lines[k]))
  }

  /** The first line that settles a version settles it; without one the version is 0. */
  ghost predicate HasVersion(verdicts: seq<Option<nat>>, v: nat) {
    (exists k: nat :: FirstVerdict(verdicts, k, v))
    || (v == 0 && forall k :: 0 <= k < |verdicts| ==> verdicts[k] == None)
  }

  ghost predicate FirstVerdict(verdicts: seq<Option<nat>>, k: nat, v: nat) {
    && k < |verdicts| && verdicts[k] == Some(v)
    && forall j :: 0 <= j < k ==> verdicts[j] == None
  }

  function VersionFrom(verdicts: seq<Option<nat>>, k: nat): nat
    requires k <= |verdicts|
    decreases |verdicts| - k
  {
    if k == |verdicts| then 0
    else if verdicts[k].Some? then verdicts[k].value
    else VersionFrom(verdicts, k + 1)
  }

  function Version(content: string): nat {
    VersionFrom(Verdicts(Lines(content)), 0)
  }

  lemma {:induction false} VersionFromIsFirstVerdict(verdicts: seq<Option<nat>>, k: nat)
    requires k <= |verdicts|
    requires forall j :: 0 <= j < k ==> verdicts[j] == None
    ensures HasVersion(verdicts, VersionFrom(verdicts, k))
    decreases |verdicts| - k
  {
    if k < |verdicts| {
      if verdicts[k].Some? {
        assert FirstVerdict(verdicts, k, verdicts[k].value);
      } else {
        VersionFromIsFirstVerdict(verdicts, k + 1);
      }
    }
  }

  lemma HasOneVersion(verdicts: seq<Option<nat>>, v: nat, w: nat)
    requires HasVersion(verdicts, v) && HasVersion(verdicts, w)
    ensures v == w
  {
    if exists k: nat :: FirstVerdict(verdicts, k, v) {
      var k: nat :| FirstVerdict(verdicts, k, v);
      assert verdicts[k] != None;
    }
    if exists k: nat :: FirstVerdict(verdicts, k, w) {
      var k: nat :| FirstVerdict(verdicts, k, w);
      assert verdicts[k] != None;
    }
  }

  /** The version of a text is the one its first deciding line gives, and no other. */
  lemma VersionIsFirstVerdict(content: string, v: nat)
    ensures Version(content) == v <==> HasVersion(Verdicts(Lines(content)), v)
  {
    var verdicts := Verdicts(Lines(content));
    VersionFromIsFirstVerdict(verdicts, 0);
    if HasVersion(verdicts, v) {
      HasOneVersion(verdicts, v, VersionFrom(verdicts, 0));
    }
  }

  /** One line of the detection loop: what it settles and the section after it. */
  method ScanLine(section: string, line: string) returns (verdict: Option<nat>, after: string)
    ensures verdict == Verdict(section, line)
    ensures after == if IsHeader(Trim(line)) then HeaderName(Trim(line)) else section
  {
    var trimmed := Trim(line);
    after := section;
    if trimmed == "" {
      return None, after;
    }
    if IsVersionComment(trimmed) {
      var v := Stoul(Trim(trimmed[10..]));
      if v.Some? {
        return Some(v.value % UINT32_LIMIT), after;
      }
    }
    if IsHeader(trimmed) {
      return None, HeaderName(trimmed);
    }
    if trimmed[0] == '#' || trimmed[0] == ';' {
      return None, after;
    }
    var eq := Find(trimmed, '=');
    if eq < |trimmed| {
      var key, val := Trim(trimmed[..eq]), Trim(trimmed[eq + 1..]);
      if key == "version" && VersionSection(section) {
        var v := Stoul(val);
        return Some(if v.Some? then v.value % UINT32_LIMIT else 0), after;
      }
    }
    verdict := None;
  }

  method DetectVersion(content: string) returns (version: nat)
    ensures version == Version(content)
  {
    var currentSection := "";
    var pos := 0;
    ghost var lines := Lines(content);
    ghost var k := 0;
    var ok, line, next := GetLine(content, pos);
    assert content[0..] == content;
    while ok
      invariant pos <= |content| && k <= |lines|
      invariant ok ==> pos < next <= |content| && Lines(content[pos..]) == [line] + Lines(content[next..])
      invariant !ok ==> Lines(content[pos..]) == []
      invariant Lines(content[pos..]) == lines[k..]
      invariant currentSection == SectionAt(lines, k)
      invariant VersionFrom(Verdicts(lines), k) == Version(content)
      decreases |content| - pos, ok
    {
      assert line == lines[k] && Lines(content[next..]) == lines[k..][1..] == lines[k + 1..];
      var verdict;
      verdict, currentSection := ScanLine(currentSection, line);
      if verdict.Some? {
        return verdict.value;
      }
      pos := next;
      k := k + 1;
      ok, line, next := GetLine(content, pos);
    }
    version := 0;
  }

  // ---------------------------------------------------------------------------------------
  // Migration

  const TITLE: string := "# LDDM Configuration File (Schema Version 1)"

  const HEADER: seq<string> := [TITLE, "[meta]", "version = 1", ""]

  predicate IsMetaHeader(line: string) {
    IsHeader(Trim(line)) && HeaderName(Trim(line)) == "meta"
  }

  /** An exact [meta] header is the word itself in brackets, with nothing but blanks around. */
  lemma MetaHeaders(line: string)
    ensures IsMetaHeader(line) <==> exists a, b :: MetaBetween(a, b, line)
  {
    var a, b := TrimIsCore(line);
    if IsMetaHeader(line) {
      var t := Trim(line);
      assert t == [t[0]] + HeaderName(t) + [t[|t| - 1]];
      assert t == "[meta]";
      assert MetaBetween(a, b, line);
    }
    if a, b :| MetaBetween(a, b, line) {
      TrimBetween(a, "[meta]", b);
    }
  }

  ghost predicate MetaBetween(a: string, b: string, line: string) {
    AllBlank(a) && AllBlank(b) && line == a + "[meta]" + b
  }

  /** Line k belongs to a section opened by an exact [meta] header. */
  ghost predicate InMeta(lines: seq<string>, k: nat) {
    k < |lines| && exists h :: OpensMeta(lines, h, k)
  }

  ghost predicate OpensMeta(lines: seq<string>, h: nat, k: nat)
    requires k < |lines|
  {
    h <= k && IsMetaHeader(lines[h]) && forall j :: h < j <= k ==> !IsHeader(Trim(lines[j]))
  }

  /** The lines outside exact [meta] sections, in order, among the first k. */
  ghost function Kept(lines: seq<string>, k: nat): seq<string>
    requires k <= |lines|
  {
    if k == 0 then []
    else Kept(lines, k - 1) + if InMeta(lines, k - 1) then [] else [lines[k - 1]]
  }

  /** What is left of the lines that follow, given whether a [meta] section is open. */
  function Keep(inMeta: bool, lines: seq<string>): seq<string>
    decreases |lines|
  {
    if lines == [] then []
    else
      var inMeta' := IsMetaHeader(lines[0]) || (inMeta && !IsHeader(Trim(lines[0])));
      (if inMeta' then [] else [lines[0]]) + Keep(inMeta', lines[1..])
  }

  /** The text of version 1 that replaces a text of version 0. */
  function Upgraded(content: string): string {
    Unlines(HEADER) + Unlines(Keep(false, Lines(content)))
  }

  function Migrated(content: string, target: nat): Result<string> {
    var v := Version(content);
    if v == target then Success(content)
    else if v > target || target > CURRENT_CONFIG_VERSION then Failure(ConfigSchemaInvalid)
    else Success(Upgraded(content))
  }

  /** Writes one line unless a [meta] section is open. */
  method WriteLine(ghost was: bool, inMeta: bool, line: string, ghost tail: seq<string>, out: string)
    returns (out': string)
    requires inMeta == (IsMetaHeader(line) || (was && !IsHeader(Trim(line))))
    ensures out' + Unlines(Keep(inMeta, tail)) == out + Unlines(Keep(was, [line] + tail))
  {
    KeepStep(was, inMeta, line, tail);
    if inMeta {
      return out;
    }
    ghost var rest := Unlines(Keep(inMeta, tail));
    assert out + line + "\n" + rest == out + (line + "\n" + rest);
    out' := out + line + "\n";
  }

  /** Copies the lines outside exact [meta] sections. */
  method AppendUserLines(header: string, content: string) returns (out: string)
    ensures out == header + Unlines(Keep(false, Lines(content)))
  {
    out := header;
    var inMeta := false;
    var pos := 0;
    ghost var goal := header + Unlines(Keep(false, Lines(content)));
    assert content[0..] == content;
    var ok, line, next := GetLine(content, pos);
    ghost var left := Lines(content[pos..]);
    while ok
      invariant pos <= |content|
      invariant ok ==> pos < next <= |content| && left == [line] + Lines(content[next..])
      invariant !ok ==> left == []
      invariant out + Unlines(Keep(inMeta, left)) == goal
      decreases |content| - pos, ok
    {
      ghost var tail, was := Lines(content[next..]), inMeta;
      var trimmed := Trim(line);
      if IsHeader(trimmed) {
        inMeta := HeaderName(trimmed) == "meta";
      }
      out := WriteLine(was, inMeta, line, tail, out);
      pos := next;
      left := tail;
      ok, line, next := GetLine(content, pos);
    }
  }

  /** What one line contributes to the kept text. */
  lemma KeepStep(was: bool, inMeta: bool, line: string, tail: seq<string>)
    requires inMeta == (IsMetaHeader(line) || (was && !IsHeader(Trim(line))))
    ensures Unlines(Keep(was, [line] + tail)) == (if inMeta then "" else line + "\n") + Unlines(Keep(inMeta, tail))
  {
    var kept := Keep(inMeta, tail);
    assert ([line] + tail)[1..] == tail;
    if inMeta {
      assert [] + kept == kept;
    } else {
      assert ([line] + kept)[1..] == kept;
    }
  }

  method MigrateContent(content: string, target: nat) returns (r: Result<string>)
    ensures r == Migrated(content, target)
  {
    var srcVersion := DetectVersion(content);
    if srcVersion == target {
      return Success(content);
    }
    if srcVersion > target {
      return Failure(ConfigSchemaInvalid);
    }
    if target > CURRENT_CONFIG_VERSION {
      return Failure(ConfigSchemaInvalid);
    }
    var working := content;
    if srcVersion == 0 && target >= 1 {
      var out := "# LDDM Configuration File (Schema Version 1)\n";
      out := out + "[meta]\n";
      out := out + "version = 1\n\n";
      HeaderText();
      working := AppendUserLines(out, content);
    }
    r := Success(working);
  }

  lemma HeaderText()
    ensures Unlines(HEADER) == "# LDDM Configuration File (Schema Version 1)\n" + "[meta]\n" + "version = 1\n\n"
  {
    assert HEADER[1..] == ["[meta]", "version = 1", ""];
    assert HEADER[1..][1..] == ["version = 1", ""];
    assert HEADER[1..][1..][1..] == [""];
    assert Unlines([""]) == "\n";
    assert Unlines(["version = 1", ""]) == "version = 1\n" + "\n";
  }
}
