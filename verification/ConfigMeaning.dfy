/** What each line of a configuration sets, told setting by setting: where it is written, how it may be
    spelled, and what its value means. A text that writes every setting is read back. */
module ConfigMeaning {
  import opened Focus
  import opened Results
  import opened Text
  import opened ConfigParser
  import opened ArgumentLists

  datatype Setting =
    | LevelSetting | LogFile | Console | Colorize
    | ServerSocket | RuntimeDir | PidFile
    | DefaultUser | SessionKind | DisplayNumber | WaylandDisplay
    | WestonPath | WestonConfigPath | WestonSocket | Backend | Arguments
    | LddePath | SessionTarget | Autostart
    | StartupTimeout | StopTimeout | RestartCount | RestartWindow

  /** The section a setting is written in. */
  ghost function SectionOf(s: Setting): string {
    match s
    case LevelSetting | LogFile | Console | Colorize => "logging"
    case ServerSocket | RuntimeDir | PidFile => "server"
    case DefaultUser | SessionKind | DisplayNumber | WaylandDisplay => "session"
    case WestonPath | WestonConfigPath | WestonSocket | Backend | Arguments => "weston"
    case LddePath | SessionTarget | Autostart => "ldde"
    case StartupTimeout | StopTimeout | RestartCount | RestartWindow => "process"
  }

  /** The keys it goes by. */
  ghost function Spellings(s: Setting): set<string> {
    match s
    case LevelSetting => {"level"}
    case LogFile => {"file_path", "file"}
    case Console => {"console", "console_output"}
    case Colorize => {"colorize", "color"}
    case ServerSocket => {"socket_path", "socket"}
    case RuntimeDir => {"runtime_dir"}
    case PidFile => {"pid_file"}
    case DefaultUser => {"default_user", "user"}
    case SessionKind => {"session_type", "type"}
    case DisplayNumber => {"display_number", "display"}
    case WaylandDisplay => {"wayland_display"}
    case WestonPath => {"executable", "path"}
    case WestonConfigPath => {"config_path", "config"}
    case WestonSocket => {"socket_name", "socket"}
    case Backend => {"backend"}
    case Arguments => {"additional_args", "args"}
    case LddePath => {"executable", "path"}
    case SessionTarget => {"session_target", "target"}
    case Autostart => {"autostart"}
    case StartupTimeout => {"startup_timeout_ms"}
    case StopTimeout => {"stop_timeout_ms"}
    case RestartCount => {"max_restart_count"}
    case RestartWindow => {"restart_window_seconds"}
  }

  datatype Value = LevelIs(level: LogLevel) | Words(text: string) | Flag(on: bool) | Number(n: nat)
    | Items(items: seq<string>)

  /** The value a setting has in a configuration. */
  ghost function Get(c: LddmConfig, s: Setting): Value {
    match s
    case LevelSetting => LevelIs(c.logging.level)
    case LogFile => Words(c.logging.filePath)
    case Console => Flag(c.logging.consoleOutput)
    case Colorize => Flag(c.logging.colorize)
    case ServerSocket => Words(c.server.socketPath)
    case RuntimeDir => Words(c.server.runtimeDir)
    case PidFile => Words(c.server.pidFile)
    case DefaultUser => Words(c.session.defaultUser)
    case SessionKind => Words(c.session.sessionType)
    case DisplayNumber => Number(c.session.displayNumber)
    case WaylandDisplay => Words(c.session.waylandDisplay)
    case WestonPath => Words(c.weston.executable)
    case WestonConfigPath => Words(c.weston.configPath)
    case WestonSocket => Words(c.weston.socketName)
    case Backend => Words(c.weston.backend)
    case Arguments => Items(c.weston.additionalArgs)
    case LddePath => Words(c.ldde.executable)
    case SessionTarget => Words(c.ldde.sessionTarget)
    case Autostart => Flag(c.ldde.autostart)
    case StartupTimeout => Number(c.process.startupTimeoutMs)
    case StopTimeout => Number(c.process.stopTimeoutMs)
    case RestartCount => Number(c.process.maxRestartCount)
    case RestartWindow => Number(c.process.restartWindowSeconds)
  }

  lemma SameLogging(a: LddmConfig, b: LddmConfig)
    requires Get(a, LevelSetting) == Get(b, LevelSetting) && Get(a, LogFile) == Get(b, LogFile)
    requires Get(a, Console) == Get(b, Console) && Get(a, Colorize) == Get(b, Colorize)
    ensures a.logging == b.logging
  {
  }

  lemma SameServer(a: LddmConfig, b: LddmConfig)
    requires Get(a, ServerSocket) == Get(b, ServerSocket) && Get(a, RuntimeDir) == Get(b, RuntimeDir)
    requires Get(a, PidFile) == Get(b, PidFile)
    ensures a.server == b.server
  {
  }

  lemma SameSession(a: LddmConfig, b: LddmConfig)
    requires Get(a, DefaultUser) == Get(b, DefaultUser) && Get(a, SessionKind) == Get(b, SessionKind)
    requires Get(a, DisplayNumber) == Get(b, DisplayNumber) && Get(a, WaylandDisplay) == Get(b, WaylandDisplay)
    ensures a.session == b.session
  {
  }

  lemma SameWeston(a: LddmConfig, b: LddmConfig)
    requires Get(a, WestonPath) == Get(b, WestonPath) && Get(a, WestonConfigPath) == Get(b, WestonConfigPath)
    requires Get(a, WestonSocket) == Get(b, WestonSocket) && Get(a, Backend) == Get(b, Backend)
    requires Get(a, Arguments) == Get(b, Arguments)
    ensures a.weston == b.weston
  {
  }

  lemma SameLdde(a: LddmConfig, b: LddmConfig)
    requires Get(a, LddePath) == Get(b, LddePath) && Get(a, SessionTarget) == Get(b, SessionTarget)
    requires Get(a, Autostart) == Get(b, Autostart)
    ensures a.ldde == b.ldde
  {
  }

  lemma SameProcess(a: LddmConfig, b: LddmConfig)
    requires Get(a, StartupTimeout) == Get(b, StartupTimeout) && Get(a, StopTimeout) == Get(b, StopTimeout)
    requires Get(a, RestartCount) == Get(b, RestartCount) && Get(a, RestartWindow) == Get(b, RestartWindow)
    ensures a.process == b.process
  {
  }

  /** The settings and the variables make up the whole configuration. */
  lemma SameByGets(a: LddmConfig, b: LddmConfig)
    requires a.environment == b.environment && forall s :: Get(a, s) == Get(b, s)
    ensures a == b
  {
    SameLogging(a, b);
    SameServer(a, b);
    SameSession(a, b);
    SameWeston(a, b);
    SameLdde(a, b);
    SameProcess(a, b);
  }

  /** The number a setting falls back to when its text is none. */
  ghost function Fallback(s: Setting): nat {
    match s
    case StartupTimeout => 10000
    case StopTimeout => 5000
    case RestartCount => 3
    case RestartWindow => 60
    case _ => 0
  }

  /** What a text means as the value of a setting; only a log level can be wrong. */
  ghost function Reading(s: Setting, text: string): Option<Value> {
    match s
    case LevelSetting => (match ParseLogLevel(text) case Some(level) => Some(LevelIs(level)) case None => None)
    case Console | Colorize | Autostart => Some(Flag(ParseBool(text, true)))
    case DisplayNumber | StartupTimeout | StopTimeout | RestartCount | RestartWindow =>
      Some(Number(ParseUint32(text, Fallback(s))))
    case Arguments => Some(Items(StringList(text)))
    case _ => Some(Words(text))
  }

  /** The setting has this value now, and nothing else changed. */
  ghost predicate Puts(c: LddmConfig, s: Setting, v: Value, c': LddmConfig) {
    && Get(c', s) == v && c'.environment == c.environment
    && forall t :: t != s ==> Get(c', t) == Get(c, t)
  }

  // ---------------------------------------------------------------------------------------
  // One assignment

  ghost predicate Sets(c: LddmConfig, s: Setting, value: string, r: Result<LddmConfig>) {
    match Reading(s, value)
    case None => r == Failure(ConfigInvalidValue)
    case Some(v) => r.Success? && Puts(c, s, v, r.value)
  }

  lemma LoggingSets(c: LddmConfig, s: Setting, key: string, value: string)
    requires SectionOf(s) == "logging" && Lower(key) in Spellings(s)
    ensures Sets(c, s, value, Assign(c, "logging", key, value))
  {
  }

  lemma ServerSets(c: LddmConfig, s: Setting, key: string, value: string)
    requires SectionOf(s) == "server" && Lower(key) in Spellings(s)
    ensures Sets(c, s, value, Assign(c, "server", key, value))
  {
  }

  lemma SessionSets(c: LddmConfig, s: Setting, key: string, value: string)
    requires SectionOf(s) == "session" && Lower(key) in Spellings(s)
    ensures Sets(c, s, value, Assign(c, "session", key, value))
  {
  }

  lemma WestonSets(c: LddmConfig, s: Setting, key: string, value: string)
    requires SectionOf(s) == "weston" && Lower(key) in Spellings(s)
    ensures Sets(c, s, value, Assign(c, "weston", key, value))
  {
  }

  lemma LddeSets(c: LddmConfig, s: Setting, key: string, value: string)
    requires SectionOf(s) == "ldde" && Lower(key) in Spellings(s)
    ensures Sets(c, s, value, Assign(c, "ldde", key, value))
  {
  }

  lemma ProcessSets(c: LddmConfig, s: Setting, key: string, value: string)
    requires SectionOf(s) == "process" && Lower(key) in Spellings(s)
    ensures Sets(c, s, value, Assign(c, "process", key, value))
  {
  }

  /** In its section, under any of its keys in any case, a line sets its setting and nothing else. */
  lemma AssignSets(c: LddmConfig, s: Setting, key: string, value: string)
    requires Lower(key) in Spellings(s)
    ensures Sets(c, s, value, Assign(c, SectionOf(s), key, value))
  {
    match SectionOf(s)
    case "logging" => LoggingSets(c, s, key, value);
    case "server" => ServerSets(c, s, key, value);
    case "session" => SessionSets(c, s, key, value);
    case "weston" => WestonSets(c, s, key, value);
    case "ldde" => LddeSets(c, s, key, value);
    case _ => ProcessSets(c, s, key, value);
  }

  ghost predicate SetsNothing(c: LddmConfig, section: string, key: string, value: string) {
    forall k {:trigger Apart(k)} :: k == key ==> Assign(c, section, k, value) == Success(c)
  }

  lemma NothingElsewhere(c: LddmConfig, section: string, key: string, value: string)
    requires !KnownSection(section)
    ensures SetsNothing(c, section, key, value)
  {
    UnknownSectionsAreInert(c, section, key, value);
    IsNothing(c, section, key, value);
  }

  lemma NothingIsSet(c: LddmConfig, section: string, key: string, value: string)
    ensures SetsNothing(c, section, key, value) ==> Assign(c, section, key, value) == Success(c)
  {
    assert Apart(key);
  }

  lemma OtherLogging(c: LddmConfig, key: string, value: string)
    requires Lower(key) !in Spellings(LevelSetting) && Lower(key) !in Spellings(LogFile)
    requires Lower(key) !in Spellings(Console) && Lower(key) !in Spellings(Colorize)
    ensures Assign(c, "logging", key, value) == Success(c)
  {
  }

  lemma OtherServer(c: LddmConfig, key: string, value: string)
    requires Lower(key) !in Spellings(ServerSocket) && Lower(key) !in Spellings(RuntimeDir)
    requires Lower(key) !in Spellings(PidFile)
    ensures Assign(c, "server", key, value) == Success(c)
  {
  }

  lemma OtherSession(c: LddmConfig, key: string, value: string)
    requires Lower(key) !in Spellings(DefaultUser) && Lower(key) !in Spellings(SessionKind)
    requires Lower(key) !in Spellings(DisplayNumber) && Lower(key) !in Spellings(WaylandDisplay)
    ensures Assign(c, "session", key, value) == Success(c)
  {
  }

  lemma OtherWeston(c: LddmConfig, key: string, value: string)
    requires Lower(key) !in Spellings(WestonPath) && Lower(key) !in Spellings(WestonConfigPath)
    requires Lower(key) !in Spellings(WestonSocket) && Lower(key) !in Spellings(Backend)
    requires Lower(key) !in Spellings(Arguments)
    ensures Assign(c, "weston", key, value) == Success(c)
  {
  }

  lemma OtherLdde(c: LddmConfig, key: string, value: string)
    requires Lower(key) !in Spellings(LddePath) && Lower(key) !in Spellings(SessionTarget)
    requires Lower(key) !in Spellings(Autostart)
    ensures Assign(c, "ldde", key, value) == Success(c)
  {
  }

  lemma OtherProcess(c: LddmConfig, key: string, value: string)
    requires Lower(key) !in Spellings(StartupTimeout) && Lower(key) !in Spellings(StopTimeout)
    requires Lower(key) !in Spellings(RestartCount) && Lower(key) !in Spellings(RestartWindow)
    ensures Assign(c, "process", key, value) == Success(c)
  {
  }

  lemma IsNothing(c: LddmConfig, section: string, key: string, value: string)
    requires Assign(c, section, key, value) == Success(c)
    ensures SetsNothing(c, section, key, value)
  {
  }

  /** This key is none of the section's. */
  ghost predicate ForeignKey(section: string, key: string) {
    forall s {:trigger Apart(s)} :: SectionOf(s) == section ==> Lower(key) !in Spellings(s)
  }

  lemma NothingInLogging(c: LddmConfig, key: string, value: string)
    requires ForeignKey("logging", key)
    ensures SetsNothing(c, "logging", key, value)
  {
    assert Apart(LevelSetting) && Apart(LogFile) && Apart(Console);
    assert Apart(Colorize);
    OtherLogging(c, key, value);
    IsNothing(c, "logging", key, value);
  }

  lemma NothingInServer(c: LddmConfig, key: string, value: string)
    requires ForeignKey("server", key)
    ensures SetsNothing(c, "server", key, value)
  {
    assert Apart(ServerSocket) && Apart(RuntimeDir) && Apart(PidFile);
    OtherServer(c, key, value);
    IsNothing(c, "server", key, value);
  }

  lemma NothingInSession(c: LddmConfig, key: string, value: string)
    requires ForeignKey("session", key)
    ensures SetsNothing(c, "session", key, value)
  {
    assert Apart(DefaultUser) && Apart(SessionKind) && Apart(DisplayNumber);
    assert Apart(WaylandDisplay);
    OtherSession(c, key, value);
    IsNothing(c, "session", key, value);
  }

  lemma NothingInWeston(c: LddmConfig, key: string, value: string)
    requires ForeignKey("weston", key)
    ensures SetsNothing(c, "weston", key, value)
  {
    assert Apart(WestonPath) && Apart(WestonConfigPath) && Apart(WestonSocket);
    assert Apart(Backend) && Apart(Arguments);
    OtherWeston(c, key, value);
    IsNothing(c, "weston", key, value);
  }

  lemma NothingInLdde(c: LddmConfig, key: string, value: string)
    requires ForeignKey("ldde", key)
    ensures SetsNothing(c, "ldde", key, value)
  {
    assert Apart(LddePath) && Apart(SessionTarget) && Apart(Autostart);
    OtherLdde(c, key, value);
    IsNothing(c, "ldde", key, value);
  }

  lemma NothingInProcess(c: LddmConfig, key: string, value: string)
    requires ForeignKey("process", key)
    ensures SetsNothing(c, "process", key, value)
  {
    assert Apart(StartupTimeout) && Apart(StopTimeout) && Apart(RestartCount);
    assert Apart(RestartWindow);
    OtherProcess(c, key, value);
    IsNothing(c, "process", key, value);
  }

  /** Any other key of these sections, and any other section, sets nothing. */
  lemma OtherKeysSetNothing(c: LddmConfig, section: string, key: string, value: string)
    requires section != "environment" && ForeignKey(section, key)
    ensures SetsNothing(c, section, key, value)
  {
    if section == "logging" {
      NothingInLogging(c, key, value);
    } else if section == "server" {
      NothingInServer(c, key, value);
    } else if section == "session" {
      NothingInSession(c, key, value);
    } else if section == "weston" {
      NothingInWeston(c, key, value);
    } else if section == "ldde" {
      NothingInLdde(c, key, value);
    } else if section == "process" {
      NothingInProcess(c, key, value);
    } else {
      NothingElsewhere(c, section, key, value);
    }
  }

  /** The environment section sets variables, under their keys as they are written. */
  lemma VariablesAreSet(c: LddmConfig, key: string, value: string)
    ensures var r := Assign(c, "environment", key, value);
            && r.Success? && r.value.environment == c.environment[key := value]
            && forall s :: Get(r.value, s) == Get(c, s)
  {
  }

  // ---------------------------------------------------------------------------------------
  // Lines

  /** A key that a line can be written with. */
  predicate IsKey(key: string) {
    key != "" && IsLine(key) && Tight(key) && '=' !in key && key[0] != '#' && key[0] != ';'
  }

  ghost function Assigned(st: State, key: string, value: string): Result<State> {
    match Assign(st.config, st.section, key, value)
    case Success(c) => Success(st.(config := c))
    case Failure(e) => Failure(e)
  }

  lemma KeyOfLine(key: string, rest: string)
    requires IsKey(key)
    ensures var t := key + " =" + rest;
            t[|key| + 1..] == "=" + rest && Find(t, '=') == |key| + 1 && !IsSkipped(t) && LineKey(t) == key
  {
    var t := key + " =" + rest;
    assert t[|key| + 1] == '=' && t[0] == key[0];
    forall i | 0 <= i < |key| + 1
      ensures t[i] != '='
    {
      assert i < |key| ==> t[i] == key[i] && key[i] in key;
    }
    FindIs(t, '=', |key| + 1);
    assert t[..|key| + 1] == key + " ";
    TrimBlankLast(key);
    TrimOfTight(key);
  }

  lemma AssigningLine(st: State, line: string, key: string, value: string)
    requires var t := Trim(line);
             !IsSkipped(t) && !IsHeader(t) && Find(t, '=') < |t| && LineKey(t) == key && LineValue(t) == value
    ensures ParseLine(st, line) == Assigned(st, key, value)
  {
  }

  /** A key and a value in double quotes: any value at all that fits on the line. */
  lemma QuotedLine(st: State, key: string, text: string)
    requires IsKey(key)
    ensures ParseLine(st, key + " = \"" + text + "\"") == Assigned(st, key, text)
  {
    var quoted := "\"" + text + "\"";
    var t := key + " =" + (" " + quoted);
    assert key + " = \"" + text + "\"" == t;
    KeyOfLine(key, " " + quoted);
    assert t[|t| - 1] == '"' && t[0] == key[0];
    TrimOfTight(t);
    assert t[|key| + 2..] == " " + quoted;
    TrimBlankFirst(quoted);
    TrimOfTight(quoted);
    assert quoted[1..|quoted| - 1] == text;
    AssigningLine(st, t, key, text);
  }

  /** Without quotes the value has to survive trimming and unquoting, and the line must not look like a header. */
  lemma PlainLine(st: State, key: string, text: string)
    requires IsKey(key) && text != "" && Tight(text) && StripQuotes(text) == text
    requires key[0] != '[' || text[|text| - 1] != ']'
    ensures ParseLine(st, key + " = " + text) == Assigned(st, key, text)
  {
    var t := key + " =" + (" " + text);
    assert key + " = " + text == t;
    KeyOfLine(key, " " + text);
    assert t[|t| - 1] == text[|text| - 1] && t[0] == key[0];
    TrimOfTight(t);
    assert t[|key| + 2..] == " " + text;
    TrimBlankFirst(text);
    TrimOfTight(text);
    AssigningLine(st, t, key, text);
  }

  /** One pair of quotes around a value, double or single, is taken off, and nothing else. */
  lemma QuotesAround(s: string)
    ensures forall x :: s == "\"" + x + "\"" || s == "'" + x + "'" ==> StripQuotes(s) == x
    ensures (forall x :: s != "\"" + x + "\"" && s != "'" + x + "'") ==> StripQuotes(s) == s
  {
    if StripQuotes(s) != s {
      assert s == [s[0]] + StripQuotes(s) + [s[0]];
    }
  }

  /** A header, in any case and with blanks around its name, opens its section. */
  lemma HeaderLine(st: State, name: string)
    ensures ParseLine(st, "[" + name + "]") == Success(st.(section := Lower(Trim(name))))
  {
    var t := "[" + name + "]";
    assert t[0] == '[' && t[|t| - 1] == ']';
    TrimOfTight(t);
    assert HeaderName(t) == name;
  }

  /** Comments and empty lines say nothing. */
  lemma SkippedLine(st: State, line: string)
    requires Trim(line) == "" || "#" <= Trim(line) || ";" <= Trim(line)
    ensures ParseLine(st, line) == Success(st)
  {
  }

  /** Any other line without a '=' is an error. */
  lemma BadLine(st: State, line: string)
    requires var t := Trim(line);
             t != "" && t[0] != '#' && t[0] != ';' && !(t[0] == '[' && t[|t| - 1] == ']') && '=' !in t
    ensures ParseLine(st, line) == Failure(ConfigParseSyntaxError)
  {
    var t := Trim(line);
    FindIs(t, '=', |t|);
  }

  /** Blanks around a line make no difference. */
  lemma PaddedLine(st: State, a: string, line: string, b: string)
    requires AllBlank(a) && AllBlank(b)
    ensures ParseLine(st, a + line + b) == ParseLine(st, line)
  {
    var c, d := TrimIsCore(line);
    var core := Trim(line);
    assert a + line + b == (a + c) + (core + (d + b));
    TrimLeftPadded(a + c, core + (d + b));
    if core == "" {
      assert a + line + b == (a + c + d + b) + "";
      TrimLeftPadded(a + c + d + b, "");
    } else {
      assert TrimLeft(core + (d + b)) == core + (d + b);
      TrimRightPadded(core, d + b);
      TrimOfTight(core);
    }
  }

  // ---------------------------------------------------------------------------------------
  // Words

  /** Capitals become small letters and everything else stays. */
  lemma LowerLetters(k: nat, c: char)
    ensures k < 26 ==> LowerChar((65 + k) as char) == (97 + k) as char
    ensures c < 'A' || c > 'Z' ==> LowerChar(c) == c
  {
  }

  /** Four words mean yes and four mean no, in any case and with any blanks around; nothing else counts. */
  lemma FlagWords(text: string, otherwise: bool)
    ensures var word := Lower(Trim(text));
            && (word in {"true", "1", "yes", "on"} ==> ParseBool(text, otherwise))
            && (word in {"false", "0", "no", "off"} ==> !ParseBool(text, otherwise))
            && (word !in {"true", "1", "yes", "on", "false", "0", "no", "off"} ==>
                  ParseBool(text, otherwise) == otherwise)
  {
  }

  ghost function LevelName(level: LogLevel): string {
    match level
    case TRACE => "TRACE"
    case DEBUG => "DEBUG"
    case INFO => "INFO"
    case WARN => "WARN"
    case ERROR => "ERROR"
    case FATAL => "FATAL"
    case OFF => "OFF"
  }

  /** A level goes by its name, all in capitals or all in small letters, and WARN also by WARNING. */
  lemma LevelWords(text: string, level: LogLevel)
    ensures ParseLogLevel(text) == Some(level) <==>
              text == LevelName(level) || text == Lower(LevelName(level))
              || (level == WARN && (text == "WARNING" || text == "warning"))
  {
    LevelsInSmall();
  }

  lemma LevelsInSmall()
    ensures Lower("TRACE") == "trace" && Lower("DEBUG") == "debug" && Lower("INFO") == "info"
    ensures Lower("WARN") == "warn" && Lower("ERROR") == "error" && Lower("FATAL") == "fatal"
    ensures Lower("OFF") == "off"
  {
  }

  ghost function Digit(d: nat): char
    requires d < 10
  {
    (48 + d) as char
  }

  /** A number in decimal. */
  ghost function Decimal(n: nat): string {
    if n < 10 then [Digit(n)] else Decimal(n / 10) + [Digit(n % 10)]
  }

  lemma {:induction false} DecimalIsDigits(n: nat)
    ensures Decimal(n) != "" && forall i :: 0 <= i < |Decimal(n)| ==> IsDigit(Decimal(n)[i])
  {
    if n >= 10 {
      DecimalIsDigits(n / 10);
    }
  }

  /** Reading on after some digits. */
  lemma {:induction false} DigitsAppend(s: string, rest: string, acc: nat)
    requires forall i :: 0 <= i < |s| ==> IsDigit(s[i])
    ensures DigitsFrom(s + rest, acc) == DigitsFrom(rest, DigitsFrom(s, acc))
  {
    if s == "" {
      assert s + rest == rest;
    } else {
      assert (s + rest)[1..] == s[1..] + rest;
      DigitsAppend(s[1..], rest, 10 * acc + (s[0] as int - '0' as int));
    }
  }

  lemma {:induction false} DecimalReads(n: nat)
    ensures DigitsFrom(Decimal(n), 0) == n
  {
    if n >= 10 {
      DecimalReads(n / 10);
      DecimalIsDigits(n / 10);
      DigitsAppend(Decimal(n / 10), [Digit(n % 10)], 0);
    }
    assert [Digit(n % 10)][1..] == "";
  }

  /** Digits, whatever but a digit follows them, are the number they write; one of 64 bits or more is none. */
  lemma NumberReads(n: nat, rest: string)
    requires rest == "" || !IsDigit(rest[0])
    ensures Stoul(Decimal(n) + rest) == if n < 0x1_0000_0000_0000_0000 then Some(n) else None
    ensures Stoul("+" + (Decimal(n) + rest)) == Stoul(Decimal(n) + rest)
    ensures Stoul("-" + (Decimal(n) + rest)) ==
              if n >= 0x1_0000_0000_0000_0000 then None
              else if n == 0 then Some(0) else Some(0x1_0000_0000_0000_0000 - n)
  {
    var t := Decimal(n) + rest;
    DecimalIsDigits(n);
    DecimalReads(n);
    DigitsAppend(Decimal(n), rest, 0);
    assert t[0] == Decimal(n)[0];
    assert ("-" + t)[1..] == t && ("+" + t)[1..] == t;
  }

  /** Any kind of space before a number is skipped. */
  lemma SpaceBeforeNumber(c: char, text: string)
    requires c as int in {9, 10, 11, 12, 13, 32}
    ensures Stoul([c] + text) == Stoul(text)
  {
    assert ([c] + text)[1..] == text;
  }

  /** Without a digit to begin with there is no number. */
  lemma NoNumber(text: string)
    requires text == "" || (text[0] !in {'-', '+'} && text[0] as int !in {9, 10, 11, 12, 13, 32}
                            && !('0' <= text[0] <= '9'))
    ensures Stoul(text) == None
  {
  }

  /** A number of up to 64 bits keeps its lower 32; without a number the fallback counts. */
  lemma NumberSetting(n: nat, text: string, otherwise: nat)
    ensures Trim(text) == Decimal(n) ==>
              ParseUint32(text, otherwise) ==
                if n < 0x1_0000_0000_0000_0000 then n % 0x1_0000_0000 else otherwise
    ensures Trim(text) == "" ==> ParseUint32(text, otherwise) == otherwise
  {
    NumberReads(n, "");
    assert Decimal(n) + "" == Decimal(n);
  }

  // ---------------------------------------------------------------------------------------
  // A whole text

  /** A setting or a variable, written under a header of its own with its value in double quotes. */
  datatype Entry =
    | SettingEntry(setting: Setting, header: string, key: string, text: string)
    | VariableEntry(header: string, key: string, text: string)

  function LinesOf(e: Entry): seq<string> {
    ["[" + e.header + "]", e.key + " = \"" + e.text + "\""]
  }

  function Written(es: seq<Entry>): seq<string> {
    if es == [] then [] else LinesOf(es[0]) + Written(es[1..])
  }

  /** Any spelling of the header and the key, in any case, and a text that fits on the line; a log level has to
      be one. */
  ghost predicate Writable(e: Entry) {
    && IsLine(e.header) && IsKey(e.key) && IsLine(e.text)
    && match e
       case SettingEntry(s, header, key, text) =>
         Lower(Trim(header)) == SectionOf(s) && Lower(key) in Spellings(s) && Reading(s, text).Some?
       case VariableEntry(header, key, text) => Lower(Trim(header)) == "environment"
  }

  ghost predicate AllWritable(es: seq<Entry>) {
    forall i :: 0 <= i < |es| ==> Writable(es[i])
  }

  ghost function ValueNow(v: Value, e: Entry, s: Setting): Value
    requires Writable(e)
  {
    if e.SettingEntry? && e.setting == s then Reading(s, e.text).value else v
  }

  ghost function VariablesNow(m: map<string, string>, e: Entry): map<string, string> {
    if e.VariableEntry? then m[e.key := e.text] else m
  }

  /** The value of a setting after these entries: the last one counts. */
  ghost function ValueAfter(v: Value, es: seq<Entry>, s: Setting): Value
    requires AllWritable(es)
    decreases |es|
  {
    if es == [] then v else ValueAfter(ValueNow(v, es[0], s), es[1..], s)
  }

  ghost function VariablesAfter(m: map<string, string>, es: seq<Entry>): map<string, string>
    decreases |es|
  {
    if es == [] then m
    else VariablesAfter(VariablesNow(m, es[0]), es[1..])
  }

  /** One entry, whatever section was open before. */
  lemma EntryMeans(st: State, e: Entry) returns (c: LddmConfig)
    requires Writable(e)
    ensures ParseLine(st, LinesOf(e)[0]) == Success(st.(section := Lower(Trim(e.header))))
    ensures ParseLine(st.(section := Lower(Trim(e.header))), LinesOf(e)[1]) ==
              Success(State(c, Lower(Trim(e.header))))
    ensures forall s :: Get(c, s) == ValueAfter(Get(st.config, s), [e], s)
    ensures c.environment == VariablesAfter(st.config.environment, [e])
  {
    var begun := st.(section := Lower(Trim(e.header)));
    HeaderLine(st, e.header);
    QuotedLine(begun, e.key, e.text);
    assert [e][1..] == [];
    match e
    case SettingEntry(s, header, key, text) =>
      AssignSets(st.config, s, key, text);
      c := Assign(st.config, begun.section, key, text).value;
    case VariableEntry(header, key, text) =>
      VariablesAreSet(st.config, key, text);
      c := Assign(st.config, "environment", key, text).value;
  }

  lemma TwoLines(st: State, e: Entry, rest: seq<string>, c: LddmConfig)
    requires ParseLine(st, LinesOf(e)[0]) == Success(st.(section := Lower(Trim(e.header))))
    requires ParseLine(st.(section := Lower(Trim(e.header))), LinesOf(e)[1]) ==
               Success(State(c, Lower(Trim(e.header))))
    ensures ParseLines(st, LinesOf(e) + rest) == ParseLines(State(c, Lower(Trim(e.header))), rest)
  {
    var ls := LinesOf(e) + rest;
    assert ls[1..][1..] == rest;
  }

  /** Every setting has the value its last entry gives it, the others keep theirs, and so do the variables. */
  lemma {:induction false} LinesMean(st: State, es: seq<Entry>) returns (c: LddmConfig)
    requires AllWritable(es)
    ensures ParseLines(st, Written(es)) == Success(c)
    ensures forall s :: Get(c, s) == ValueAfter(Get(st.config, s), es, s)
    ensures c.environment == VariablesAfter(st.config.environment, es)
    decreases |es|
  {
    if es == [] {
      c := st.config;
    } else {
      var next := EntryMeans(st, es[0]);
      TwoLines(st, es[0], Written(es[1..]), next);
      c := LinesMean(State(next, Lower(Trim(es[0].header))), es[1..]);
      forall s
        ensures Get(c, s) == ValueAfter(Get(st.config, s), es, s)
      {
        ValueStep(Get(st.config, s), es, s);
      }
      VariablesStep(st.config.environment, es);
    }
  }

  lemma ValueStep(v: Value, es: seq<Entry>, s: Setting)
    requires AllWritable(es) && es != []
    ensures ValueAfter(v, es, s) == ValueAfter(ValueAfter(v, [es[0]], s), es[1..], s)
  {
    assert [es[0]][1..] == [];
  }

  lemma VariablesStep(m: map<string, string>, es: seq<Entry>)
    requires es != []
    ensures VariablesAfter(m, es) == VariablesAfter(VariablesAfter(m, [es[0]]), es[1..])
  {
    assert [es[0]][1..] == [];
  }

  lemma {:induction false} WrittenAreLines(es: seq<Entry>)
    requires AllWritable(es)
    ensures AreLines(Written(es))
  {
    if es != [] {
      var e := es[0];
      WrittenAreLines(es[1..]);
      assert IsLine("[" + e.header + "]");
      assert IsLine(e.key + " = \"" + e.text + "\"");
    }
  }

  /** What a text made of such entries means over any base. */
  lemma TextMeans(base: LddmConfig, es: seq<Entry>) returns (c: LddmConfig)
    requires AllWritable(es)
    ensures Parse(Unlines(Written(es)), base) == Success(c)
    ensures forall s :: Get(c, s) == ValueAfter(Get(base, s), es, s)
    ensures c.environment == VariablesAfter(base.environment, es)
  {
    WrittenAreLines(es);
    LinesOfUnlines(Written(es));
    c := LinesMean(State(base, ""), es);
  }

  // ---------------------------------------------------------------------------------------
  // Writing a whole configuration

  /** Items one after the other with a space between. */
  ghost function Spaced(items: seq<string>): string {
    if items == [] then "" else if |items| == 1 then items[0] else items[0] + " " + Spaced(items[1..])
  }

  lemma {:induction false} SpacedReads(items: seq<string>)
    requires forall i :: 0 <= i < |items| ==> Plain(items[i])
    ensures StringList(Spaced(items)) == items && IsLine(Spaced(items))
  {
    if |items| == 1 {
      BareIsReadBack(items[0]);
    } else if |items| > 1 {
      SpacedReads(items[1..]);
      SpacedStep(items[0], Spaced(items[1..]));
      assert Spaced(items) == items[0] + (" " + Spaced(items[1..]));
      assert items == [items[0]] + items[1..];
    }
  }

  lemma SpacedStep(x: string, rest: string)
    requires Plain(x)
    ensures StringList(x + (" " + rest)) == [x] + StringList(rest)
    ensures IsLine(rest) ==> IsLine(x + (" " + rest))
  {
    BareIsCollected(x, " " + rest, "");
    assert "" + x == x && (" " + rest)[1..] == rest;
    assert x[0] !in QUOTES;
    FlushKeepsOnlySurvivors(x);
  }

  /** The text a value is written with. */
  ghost function Spelled(v: Value): string {
    match v
    case LevelIs(level) => LevelName(level)
    case Words(text) => text
    case Flag(on) => if on then "true" else "false"
    case Number(n) => Decimal(n)
    case Items(items) => Spaced(items)
  }

  /** A value that fits on a line: numbers have 32 bits, and arguments need no quotes. */
  ghost predicate Fits(v: Value) {
    match v
    case Words(text) => IsLine(text)
    case Number(n) => n < 0x1_0000_0000
    case Items(items) => forall i :: 0 <= i < |items| ==> Plain(items[i])
    case _ => true
  }

  lemma LevelReads(level: LogLevel)
    ensures Reading(LevelSetting, LevelName(level)) == Some(LevelIs(level)) && IsLine(LevelName(level))
  {
    LevelWords(LevelName(level), level);
  }

  lemma FlagReads(s: Setting, on: bool)
    requires s in {Console, Colorize, Autostart}
    ensures Reading(s, if on then "true" else "false") == Some(Flag(on))
  {
    var text := if on then "true" else "false";
    TrimOfTight(text);
    assert Lower("true") == "true" && Lower("false") == "false";
    FlagWords(text, true);
  }

  lemma NumberReadsBack(s: Setting, n: nat)
    requires s in {DisplayNumber, StartupTimeout, StopTimeout, RestartCount, RestartWindow} && n < 0x1_0000_0000
    ensures Reading(s, Decimal(n)) == Some(Number(n)) && IsLine(Decimal(n))
  {
    DecimalIsDigits(n);
    DigitsAreLine(Decimal(n));
    NumberSetting(n, Decimal(n), Fallback(s));
  }

  lemma DigitsAreLine(text: string)
    requires text != "" && forall i :: 0 <= i < |text| ==> IsDigit(text[i])
    ensures Trim(text) == text && IsLine(text)
  {
    TrimOfTight(text);
  }

  /** What is written for a value is read as that value. */
  lemma SpelledReads(c: LddmConfig, s: Setting)
    requires Fits(Get(c, s))
    ensures Reading(s, Spelled(Get(c, s))) == Some(Get(c, s)) && IsLine(Spelled(Get(c, s)))
  {
    match s
    case LevelSetting => LevelReads(c.logging.level);
    case Console | Colorize | Autostart => FlagReads(s, Get(c, s).on);
    case DisplayNumber | StartupTimeout | StopTimeout | RestartCount | RestartWindow =>
      NumberReadsBack(s, Get(c, s).n);
    case Arguments => SpacedReads(c.weston.additionalArgs);
    case _ =>
  }

  const EVERYTHING: seq<Setting> := [
    LevelSetting, LogFile, Console, Colorize, ServerSocket, RuntimeDir, PidFile,
    DefaultUser, SessionKind, DisplayNumber, WaylandDisplay,
    WestonPath, WestonConfigPath, WestonSocket, Backend, Arguments,
    LddePath, SessionTarget, Autostart, StartupTimeout, StopTimeout, RestartCount, RestartWindow]

  lemma NothingForgotten(s: Setting)
    ensures s in EVERYTHING
  {
    match s
    case LevelSetting => assert EVERYTHING[0] == s;
    case LogFile => assert EVERYTHING[1] == s;
    case Console => assert EVERYTHING[2] == s;
    case Colorize => assert EVERYTHING[3] == s;
    case ServerSocket => assert EVERYTHING[4] == s;
    case RuntimeDir => assert EVERYTHING[5] == s;
    case PidFile => assert EVERYTHING[6] == s;
    case DefaultUser => assert EVERYTHING[7] == s;
    case SessionKind => assert EVERYTHING[8] == s;
    case DisplayNumber => assert EVERYTHING[9] == s;
    case WaylandDisplay => assert EVERYTHING[10] == s;
    case WestonPath => assert EVERYTHING[11] == s;
    case WestonConfigPath => assert EVERYTHING[12] == s;
    case WestonSocket => assert EVERYTHING[13] == s;
    case Backend => assert EVERYTHING[14] == s;
    case Arguments => assert EVERYTHING[15] == s;
    case LddePath => assert EVERYTHING[16] == s;
    case SessionTarget => assert EVERYTHING[17] == s;
    case Autostart => assert EVERYTHING[18] == s;
    case StartupTimeout => assert EVERYTHING[19] == s;
    case StopTimeout => assert EVERYTHING[20] == s;
    case RestartCount => assert EVERYTHING[21] == s;
    case RestartWindow => assert EVERYTHING[22] == s;
  }

  /** The keys are a spelling each, perhaps in capitals. */
  ghost predicate KeysFit(keys: map<Setting, string>) {
    forall s {:trigger s in keys} :: s in keys && IsKey(keys[s]) && Lower(keys[s]) in Spellings(s)
  }

  /** The entries that write these settings of a configuration. */
  ghost function SettingsOf(c: LddmConfig, settings: seq<Setting>, keys: map<Setting, string>): seq<Entry>
    requires KeysFit(keys)
  {
    if settings == [] then []
    else
      [SettingEntry(settings[0], SectionOf(settings[0]), keys[settings[0]], Spelled(Get(c, settings[0])))]
      + SettingsOf(c, settings[1..], keys)
  }

  ghost function VariablesOf(m: map<string, string>, names: seq<string>): seq<Entry>
    requires forall i :: 0 <= i < |names| ==> names[i] in m
  {
    if names == [] then []
    else [VariableEntry("environment", names[0], m[names[0]])] + VariablesOf(m, names[1..])
  }

  lemma SectionsAreLines(s: Setting)
    ensures IsLine(SectionOf(s)) && Lower(Trim(SectionOf(s))) == SectionOf(s)
    ensures IsLine("environment") && Lower(Trim("environment")) == "environment"
  {
    TrimOfTight(SectionOf(s));
    TrimOfTight("environment");
    SectionsAreLower();
  }

  lemma SectionsAreLower()
    ensures Lower("logging") == "logging" && Lower("server") == "server" && Lower("session") == "session"
    ensures Lower("weston") == "weston" && Lower("ldde") == "ldde" && Lower("process") == "process"
    ensures Lower("environment") == "environment"
  {
  }

  lemma {:induction false} SettingsAreWritable(c: LddmConfig, settings: seq<Setting>, keys: map<Setting, string>)
    requires KeysFit(keys) && forall s :: Fits(Get(c, s))
    ensures AllWritable(SettingsOf(c, settings, keys))
  {
    if settings != [] {
      var s := settings[0];
      SettingsAreWritable(c, settings[1..], keys);
      SpelledReads(c, s);
      SectionsAreLines(s);
      assert s in keys;
    }
  }

  lemma {:induction false} SettingsAreSet(c: LddmConfig, settings: seq<Setting>, keys: map<Setting, string>, v: Value,
    s: Setting)
    requires KeysFit(keys) && (forall t :: Fits(Get(c, t))) && AllWritable(SettingsOf(c, settings, keys))
    requires v == Get(c, s) || s in settings
    ensures ValueAfter(v, SettingsOf(c, settings, keys), s) == Get(c, s)
  {
    if settings != [] {
      var es := SettingsOf(c, settings, keys);
      SpelledReads(c, settings[0]);
      assert es[1..] == SettingsOf(c, settings[1..], keys);
      SettingsAreSet(c, settings[1..], keys, if settings[0] == s then Get(c, s) else v, s);
    }
  }

  lemma {:induction false} SettingsLeaveVariables(c: LddmConfig, settings: seq<Setting>, keys: map<Setting, string>,
    m: map<string, string>)
    requires KeysFit(keys)
    ensures VariablesAfter(m, SettingsOf(c, settings, keys)) == m
  {
    if settings != [] {
      assert SettingsOf(c, settings, keys)[1..] == SettingsOf(c, settings[1..], keys);
      SettingsLeaveVariables(c, settings[1..], keys, m);
    }
  }

  /** A variable that can be written: a key and a value on one line. */
  predicate VariableFits(name: string, value: string) {
    IsKey(name) && IsLine(value)
  }

  lemma {:induction false} VariablesAreWritable(m: map<string, string>, names: seq<string>)
    requires forall i :: 0 <= i < |names| ==> names[i] in m && VariableFits(names[i], m[names[i]])
    ensures AllWritable(VariablesOf(m, names))
  {
    if names != [] {
      VariablesAreWritable(m, names[1..]);
      SectionsAreLines(LevelSetting);
    }
  }

  lemma {:induction false} VariablesAreSetAll(base: map<string, string>, m: map<string, string>, names: seq<string>)
    requires forall i :: 0 <= i < |names| ==> names[i] in m
    ensures VariablesAfter(base, VariablesOf(m, names)) == base + map k | k in m && k in names :: m[k]
    decreases |names|
  {
    if names != [] {
      var es := VariablesOf(m, names);
      assert es[1..] == VariablesOf(m, names[1..]);
      VariablesAreSetAll(base[names[0] := m[names[0]]], m, names[1..]);
      OneMoreVariable(base, m, names);
    }
  }

  lemma OneMoreVariable(base: map<string, string>, m: map<string, string>, names: seq<string>)
    requires names != [] && names[0] in m
    ensures base[names[0] := m[names[0]]] + (map k | k in m && k in names[1..] :: m[k]) ==
              base + (map k | k in m && k in names :: m[k])
  {
    assert forall k :: k in names <==> k == names[0] || k in names[1..];
  }

  lemma {:induction false} VariablesLeaveSettings(m: map<string, string>, names: seq<string>, v: Value, s: Setting)
    requires forall i :: 0 <= i < |names| ==> names[i] in m
    requires AllWritable(VariablesOf(m, names))
    ensures ValueAfter(v, VariablesOf(m, names), s) == v
  {
    if names != [] {
      assert VariablesOf(m, names)[1..] == VariablesOf(m, names[1..]);
      VariablesLeaveSettings(m, names[1..], v, s);
    }
  }

  lemma {:induction false} ValueAfterAppend(v: Value, a: seq<Entry>, b: seq<Entry>, s: Setting)
    requires AllWritable(a) && AllWritable(b)
    ensures AllWritable(a + b) && ValueAfter(v, a + b, s) == ValueAfter(ValueAfter(v, a, s), b, s)
    decreases |a|
  {
    if a == [] {
      assert a + b == b;
    } else {
      assert (a + b)[1..] == a[1..] + b;
      ValueAfterAppend(ValueNow(v, a[0], s), a[1..], b, s);
    }
  }

  lemma {:induction false} VariablesAfterAppend(m: map<string, string>, a: seq<Entry>, b: seq<Entry>)
    ensures VariablesAfter(m, a + b) == VariablesAfter(VariablesAfter(m, a), b)
    decreases |a|
  {
    if a == [] {
      assert a + b == b;
    } else {
      assert (a + b)[1..] == a[1..] + b;
      VariablesAfterAppend(VariablesNow(m, a[0]), a[1..], b);
    }
  }

  /** A text that writes every setting of a configuration, under any spellings of the keys, and its variables in
      any order, parses over every base to that configuration; variables of the base that it does not write
      stay. */
  lemma ConfigurationReadBack(base: LddmConfig, c: LddmConfig, keys: map<Setting, string>, names: seq<string>)
    requires KeysFit(keys) && forall s :: Fits(Get(c, s))
    requires forall k :: k in names <==> k in c.environment
    requires forall k :: k in c.environment ==> VariableFits(k, c.environment[k])
    ensures Parse(Unlines(Written(SettingsOf(c, EVERYTHING, keys) + VariablesOf(c.environment, names))), base) ==
              Success(c.(environment := base.environment + c.environment))
  {
    var a, b := SettingsOf(c, EVERYTHING, keys), VariablesOf(c.environment, names);
    SettingsAreWritable(c, EVERYTHING, keys);
    VariablesAreWritable(c.environment, names);
    var r := TextMeans(base, a + b);
    forall s
      ensures Get(r, s) == Get(c, s)
    {
      ValueAfterAppend(Get(base, s), a, b, s);
      NothingForgotten(s);
      SettingsAreSet(c, EVERYTHING, keys, Get(base, s), s);
      VariablesLeaveSettings(c.environment, names, Get(c, s), s);
    }
    VariablesAfterAppend(base.environment, a, b);
    SettingsLeaveVariables(c, EVERYTHING, keys, base.environment);
    VariablesAreSetAll(base.environment, c.environment, names);
    assert (map k | k in c.environment && k in names :: c.environment[k]) == c.environment;
    OnlySettings(r, c, base.environment + c.environment);
  }

  lemma OnlySettings(r: LddmConfig, c: LddmConfig, variables: map<string, string>)
    requires r.environment == variables && forall s :: Get(r, s) == Get(c, s)
    ensures r == c.(environment := variables)
  {
    var d := c.(environment := variables);
    forall s
      ensures Get(r, s) == Get(d, s)
    {
    }
    SameByGets(r, d);
  }
}
