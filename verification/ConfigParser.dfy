/** The INI-style configuration reader: what a configuration text means. */
module ConfigParser {
  import opened Results
  import opened Text

  datatype LogLevel = TRACE | DEBUG | INFO | WARN | ERROR | FATAL | OFF

  datatype LoggingConfig = LoggingConfig(level: LogLevel, filePath: string, consoleOutput: bool, colorize: bool)
  datatype ServerConfig = ServerConfig(socketPath: string, runtimeDir: string, pidFile: string)
  datatype SessionConfig = SessionConfig(defaultUser: string, sessionType: string, displayNumber: nat,
                                         waylandDisplay: string)
  datatype WestonConfig = WestonConfig(executable: string, configPath: string, socketName: string, backend: string,
                                       additionalArgs: seq<string>)
  datatype LddeConfig = LddeConfig(executable: string, sessionTarget: string, autostart: bool)
  datatype ProcessConfig = ProcessConfig(startupTimeoutMs: nat, stopTimeoutMs: nat, maxRestartCount: nat,
                                         restartWindowSeconds: nat)

  datatype LddmConfig = LddmConfig(
    logging: LoggingConfig,
    server: ServerConfig,
    session: SessionConfig,
    weston: WestonConfig,
    ldde: LddeConfig,
    process: ProcessConfig,
    environment: map<string, string>)

  // ---------------------------------------------------------------------------------------
  // Values

  /** Drops one pair of matching outer quotes. */
  function StripQuotes(s: string): string {
    if |s| >= 2 && s[0] == s[|s| - 1] && (s[0] == '"' || s[0] == '\'') then s[1..|s| - 1] else s
  }

  function ParseBool(val: string, defaultValue: bool): bool {
    var s := Lower(Trim(val));
    if s == "true" || s == "1" || s == "yes" || s == "on" then true
    else if s == "false" || s == "0" || s == "no" || s == "off" then false
    else defaultValue
  }

  const ULONG_LIMIT: nat := 0x1_0000_0000_0000_0000
  const UINT32_LIMIT: nat := 0x1_0000_0000

  predicate IsDigit(c: char) {
    '0' <= c <= '9'
  }

  predicate IsSpace(c: char) {
    c == ' ' || 9 <= c as int <= 13
  }

  /** Decimal value of the longest digit prefix, given the value read so far. */
  function DigitsFrom(s: string, acc: nat): nat {
    if s == "" || !IsDigit(s[0]) then acc else DigitsFrom(s[1..], 10 * acc + (s[0] as int - '0' as int))
  }

  function SkipSpace(s: string): string {
    if s != "" && IsSpace(s[0]) then SkipSpace(s[1..]) else s
  }

  /** std::stoul in base ten on a 64-bit unsigned long: leading space, an optional sign, at least one
      digit, trailing text ignored; out of range is an error and a minus sign wraps around. */
  function Stoul(s: string): Option<nat> {
    var t := SkipSpace(s);
    var negative := t != "" && t[0] == '-';
    var digits := if t != "" && (t[0] == '-' || t[0] == '+') then t[1..] else t;
    if digits == "" || !IsDigit(digits[0]) then None
    else
      var v := DigitsFrom(digits, 0);
      if v >= ULONG_LIMIT then None
      else if negative && v > 0 then Some(ULONG_LIMIT - v)
      else Some(v)
  }

  function ParseUint32(val: string, defaultValue: nat): nat {
    match Stoul(Trim(val))
    case None => defaultValue
    case Some(v) => v % UINT32_LIMIT
  }

  function ParseLogLevel(s: string): Option<LogLevel> {
    if s == "TRACE" || s == "trace" then Some(TRACE)
    else if s == "DEBUG" || s == "debug" then Some(DEBUG)
    else if s == "INFO" || s == "info" then Some(INFO)
    else if s == "WARN" || s == "warn" || s == "WARNING" || s == "warning" then Some(WARN)
    else if s == "ERROR" || s == "error" then Some(ERROR)
    else if s == "FATAL" || s == "fatal" then Some(FATAL)
    else if s == "OFF" || s == "off" then Some(OFF)
    else None
  }

  // ---------------------------------------------------------------------------------------
  // Argument lists

  datatype Quote = Outside | Inside(c: char)

  /** The item closed by a separator, when it is not blank. */
  function Flush(current: string): seq<string> {
    var t := Trim(current);
    if t == "" then [] else [StripQuotes(t)]
  }

  /** Items found in the rest of a list, given the item being collected and the open quote. */
  function ItemsFrom(val: string, current: string, q: Quote): seq<string>
    decreases |val|
  {
    if val == "" then Flush(current)
    else
      var c := val[0];
      if q == Outside && (c == '"' || c == '\'') then ItemsFrom(val[1..], current, Inside(c))
      else if q == Inside(c) then ItemsFrom(val[1..], current, Outside)
      else if q == Outside && (c == ',' || c == ' ') then Flush(current) + ItemsFrom(val[1..], "", Outside)
      else ItemsFrom(val[1..], current + [c], q)
  }

  function StringList(val: string): seq<string> {
    ItemsFrom(val, "", Outside)
  }

  method ParseStringList(val: string) returns (items: seq<string>)
    ensures items == StringList(val)
  {
    items := [];
    var current := "";
    var inQuotes, quoteChar := false, '\0';
    for i := 0 to |val|
      invariant items + ItemsFrom(val[i..], current, if inQuotes then Inside(quoteChar) else Outside) == StringList(val)
    {
      var c := val[i];
      assert val[i..][1..] == val[i + 1..];
      if !inQuotes && (c == '"' || c == '\'') {
        inQuotes, quoteChar := true, c;
      } else if inQuotes && c == quoteChar {
        inQuotes, quoteChar := false, '\0';
      } else if !inQuotes && (c == ',' || c == ' ') {
        var trimmed := Trim(current);
        if trimmed != "" {
          items := items + [StripQuotes(trimmed)];
        }
        current := "";
      } else {
        current := current + [c];
      }
    }
    var trimmed := Trim(current);
    if trimmed != "" {
      items := items + [StripQuotes(trimmed)];
    }
  }

  // ---------------------------------------------------------------------------------------
  // Sections and keys

  function SetLogging(c: LoggingConfig, key: string, value: string): Result<LoggingConfig> {
    if key == "level" then
      match ParseLogLevel(value)
      case Some(level) => Success(c.(level := level))
      case None => Failure(ConfigInvalidValue)
    else if key == "file_path" || key == "file" then Success(c.(filePath := value))
    else if key == "console" || key == "console_output" then Success(c.(consoleOutput := ParseBool(value, true)))
    else if key == "colorize" || key == "color" then Success(c.(colorize := ParseBool(value, true)))
    else Success(c)
  }

  function SetServer(c: ServerConfig, key: string, value: string): ServerConfig {
    if key == "socket_path" || key == "socket" then c.(socketPath := value)
    else if key == "runtime_dir" then c.(runtimeDir := value)
    else if key == "pid_file" then c.(pidFile := value)
    else c
  }

  function SetSession(c: SessionConfig, key: string, value: string): SessionConfig {
    if key == "default_user" || key == "user" then c.(defaultUser := value)
    else if key == "session_type" || key == "type" then c.(sessionType := value)
    else if key == "display_number" || key == "display" then c.(displayNumber := ParseUint32(value, 0))
    else if key == "wayland_display" then c.(waylandDisplay := value)
    else c
  }

  function SetWeston(c: WestonConfig, key: string, value: string): WestonConfig {
    if key == "executable" || key == "path" then c.(executable := value)
    else if key == "config_path" || key == "config" then c.(configPath := value)
    else if key == "socket_name" || key == "socket" then c.(socketName := value)
    else if key == "backend" then c.(backend := value)
    else if key == "additional_args" || key == "args" then c.(additionalArgs := StringList(value))
    else c
  }

  function SetLdde(c: LddeConfig, key: string, value: string): LddeConfig {
    if key == "executable" || key == "path" then c.(executable := value)
    else if key == "session_target" || key == "target" then c.(sessionTarget := value)
    else if key == "autostart" then c.(autostart := ParseBool(value, true))
    else c
  }

  function SetProcess(c: ProcessConfig, key: string, value: string): ProcessConfig {
    if key == "startup_timeout_ms" then c.(startupTimeoutMs := ParseUint32(value, 10000))
    else if key == "stop_timeout_ms" then c.(stopTimeoutMs := ParseUint32(value, 5000))
    else if key == "max_restart_count" then c.(maxRestartCount := ParseUint32(value, 3))
    else if key == "restart_window_seconds" then c.(restartWindowSeconds := ParseUint32(value, 60))
    else c
  }

  /** Section dispatch; the environment section alone keeps the case of its keys. */
  function Assign(config: LddmConfig, section: string, key: string, value: string): Result<LddmConfig> {
    var keyLower := Lower(key);
    match section
    case "logging" =>
      (match SetLogging(config.logging, keyLower, value)
       case Success(l) => Success(config.(logging := l))
       case Failure(e) => Failure(e))
    case "server" => Success(config.(server := SetServer(config.server, keyLower, value)))
    case "session" => Success(config.(session := SetSession(config.session, keyLower, value)))
    case "weston" => Success(config.(weston := SetWeston(config.weston, keyLower, value)))
    case "ldde" => Success(config.(ldde := SetLdde(config.ldde, keyLower, value)))
    case "process" => Success(config.(process := SetProcess(config.process, keyLower, value)))
    case "environment" => Success(config.(environment := config.environment[key := value]))
    case _ => Success(config)
  }

  // ---------------------------------------------------------------------------------------
  // Lines

  datatype State = State(config: LddmConfig, section: string)

  predicate IsSkipped(trimmed: string) {
    trimmed == "" || trimmed[0] == '#' || trimmed[0] == ';'
  }

  predicate IsHeader(trimmed: string) {
    |trimmed| >= 2 && trimmed[0] == '[' && trimmed[|trimmed| - 1] == ']'
  }

  function HeaderName(trimmed: string): string
    requires IsHeader(trimmed)
  {
    trimmed[1..|trimmed| - 1]
  }

  function LineKey(trimmed: string): string {
    Trim(trimmed[..Find(trimmed, '=')])
  }

  function LineValue(trimmed: string): string
    requires Find(trimmed, '=') < |trimmed|
  {
    StripQuotes(Trim(trimmed[Find(trimmed, '=') + 1..]))
  }

  function ParseLine(st: State, line: string): Result<State> {
    var trimmed := Trim(line);
    if IsSkipped(trimmed) then Success(st)
    else if IsHeader(trimmed) then Success(st.(section := Lower(Trim(HeaderName(trimmed)))))
    else if Find(trimmed, '=') == |trimmed| then Failure(ConfigParseSyntaxError)
    else
      match Assign(st.config, st.section, LineKey(trimmed), LineValue(trimmed))
      case Success(c) => Success(st.(config := c))
      case Failure(e) => Failure(e)
  }

  /** Lines are read in order and the first bad one ends the reading. */
  function ParseLines(st: State, lines: seq<string>): Result<LddmConfig>
    decreases |lines|
  {
    if lines == [] then Success(st.config)
    else
      match ParseLine(st, lines[0])
      case Success(st') => ParseLines(st', lines[1..])
      case Failure(e) => Failure(e)
  }

  /** The meaning of a configuration text over a base configuration. */
  function Parse(content: string, base: LddmConfig): Result<LddmConfig> {
    ParseLines(State(base, ""), Lines(content))
  }

  method ParseString(content: string, base: LddmConfig) returns (r: Result<LddmConfig>)
    ensures r == Parse(content, base)
  {
    var config := base;
    var currentSection := "";
    var pos := 0;
    var ok, line, next := GetLine(content, pos);
    assert content[0..] == content;
    while ok
      invariant pos <= |content|
      invariant ok ==> pos < next <= |content| && Lines(content[pos..]) == [line] + Lines(content[next..])
      invariant !ok ==> Lines(content[pos..]) == []
      invariant ParseLines(State(config, currentSection), Lines(content[pos..])) == Parse(content, base)
      decreases |content| - pos, ok
    {
      var trimmed := Trim(line);
      if IsSkipped(trimmed) {
      } else if IsHeader(trimmed) {
        currentSection := Lower(Trim(HeaderName(trimmed)));
      } else if Find(trimmed, '=') == |trimmed| {
        return Failure(ConfigParseSyntaxError);
      } else {
        var outcome := Assign(config, currentSection, LineKey(trimmed), LineValue(trimmed));
        match outcome {
          case Failure(e) => return Failure(e);
          case Success(c) => config := c;
        }
      }
      assert Lines(content[pos..])[1..] == Lines(content[next..]);
      pos := next;
      ok, line, next := GetLine(content, pos);
    }
    r := Success(config);
  }

  // ---------------------------------------------------------------------------------------
  // Facts about the reader

  predicate KnownSection(section: string) {
    section in {"logging", "server", "session", "weston", "ldde", "process", "environment"}
  }

  /** Assignments outside the seven known sections have no effect. */
  lemma UnknownSectionsAreInert(config: LddmConfig, section: string, key: string, value: string)
    requires !KnownSection(section)
    ensures Assign(config, section, key, value) == Success(config)
  {
  }

  lemma LineKeyHasNoEquals(line: string)
    ensures '=' !in LineKey(Trim(line))
  {
    var t := Trim(line);
    var a, b := TrimIsCore(t[..Find(t, '=')]);
    var k := LineKey(t);
    forall i | 0 <= i < |k|
      ensures k[i] != '='
    {
      assert t[|a| + i] == (a + k + b)[|a| + i];
    }
  }

  /** No text can put an environment key containing '=' into the configuration. */
  lemma {:induction false} EnvironmentKeysHaveNoEquals(st: State, lines: seq<string>)
    requires NoEquals(st.config.environment.Keys)
    ensures ParseLines(st, lines).Success? ==> NoEquals(ParseLines(st, lines).value.environment.Keys)
    decreases |lines|
  {
    if lines != [] {
      LineKeyHasNoEquals(lines[0]);
      var next := ParseLine(st, lines[0]);
      if next.Success? {
        EnvironmentKeysHaveNoEquals(next.value, lines[1..]);
      }
    }
  }
}
