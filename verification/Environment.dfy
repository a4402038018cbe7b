/** The session environment, its "key=value" rendering and the environment a child process gets. */
module Environment {
  import opened Results
  import opened Text
  import opened ConfigParser

  /** `v` lists every binding of `m` once, as key=value, in the order `keys`. */
  ghost predicate Renders(v: seq<string>, keys: seq<string>, m: map<string, string>) {
    && |v| == |keys|
    && (forall i, j :: 0 <= i < j < |keys| ==> keys[i] != keys[j])
    && (forall k :: k in m <==> k in keys)
    && (forall i :: 0 <= i < |keys| ==> v[i] == Entry(keys[i], m[keys[i]]))
  }

  /** `v` lists every binding of `m` once, in some order. */
  ghost predicate Lists(v: seq<string>, m: map<string, string>) {
    exists keys :: Renders(v, keys, m)
  }

  function Entry(k: string, v: string): string {
    k + "=" + v
  }

  predicate HasEquals(entry: string) {
    Find(entry, '=') < |entry|
  }

  function EntryKey(entry: string): string {
    entry[..Find(entry, '=')]
  }

  function EntryValue(entry: string): string
    requires HasEquals(entry)
  {
    entry[Find(entry, '=') + 1..]
  }

  /** Splitting entries at their first '='; later entries win and entries without '=' are ignored. */
  function Rebuild(v: seq<string>): map<string, string> {
    if v == [] then map[]
    else
      var m, entry := Rebuild(v[..|v| - 1]), v[|v| - 1];
      if HasEquals(entry) then m[EntryKey(entry) := EntryValue(entry)] else m
  }

  datatype SessionType = Wayland | X11 | Headless

  datatype SessionSettings = SessionSettings(
    user: string, sessionType: SessionType, x11Display: string, overrides: map<string, string>)

  datatype SessionLocations = SessionLocations(runtimeDir: string, waylandSocketName: string)

  /** HOME of the session: inherited when set and not empty. */
  function HomeOf(user: string, inherited: Option<string>): string {
    if inherited.Some? && inherited.value != "" then inherited.value
    else if user == "root" then "/root"
    else "/home/" + user
  }

  /** Variables that depend on the kind of session. */
  function TypeDefaults(s: SessionSettings, l: SessionLocations): map<string, string> {
    match s.sessionType
    case Wayland => map["WAYLAND_DISPLAY" := l.waylandSocketName, "XDG_SESSION_TYPE" := "wayland",
                        "QT_QPA_PLATFORM" := "wayland", "GDK_BACKEND" := "wayland"]
    case X11 => map["DISPLAY" := s.x11Display, "XDG_SESSION_TYPE" := "x11",
                    "QT_QPA_PLATFORM" := "xcb", "GDK_BACKEND" := "x11"]
    case Headless => map["XDG_SESSION_TYPE" := "headless"]
  }

  function UserDefaults(user: string, home: string, runtimeDir: string): map<string, string> {
    map["USER" := user, "LOGNAME" := user, "HOME" := home, "XDG_RUNTIME_DIR" := runtimeDir,
        "XDG_CONFIG_HOME" := home + "/.config", "XDG_DATA_HOME" := home + "/.local/share",
        "XDG_CACHE_HOME" := home + "/.cache"]
  }

  const DESKTOP_DEFAULTS: map<string, string> := map["XDG_CURRENT_DESKTOP" := "LDDE", "XDG_SESSION_DESKTOP" := "LDDE"]

  /** The variables a session sets by itself. */
  function Defaults(s: SessionSettings, l: SessionLocations, inheritedHome: Option<string>): map<string, string> {
    UserDefaults(s.user, HomeOf(s.user, inheritedHome), l.runtimeDir) + TypeDefaults(s, l) + DESKTOP_DEFAULTS
  }

  /** The variables of an initialised session. */
  function SessionDefaults(inherited: map<string, string>, s: SessionSettings, l: SessionLocations,
    inheritedHome: Option<string>): map<string, string>
  {
    inherited + Defaults(s, l, inheritedHome) + s.overrides
  }

  const COMMON_KEYS: set<string> := {"USER", "LOGNAME", "HOME", "XDG_RUNTIME_DIR", "XDG_CONFIG_HOME", "XDG_DATA_HOME",
                                     "XDG_CACHE_HOME", "XDG_SESSION_TYPE", "XDG_CURRENT_DESKTOP", "XDG_SESSION_DESKTOP"}

  /** The variables every session of this kind has. */
  function DefaultKeys(t: SessionType): set<string> {
    match t
    case Wayland => COMMON_KEYS + {"WAYLAND_DISPLAY", "QT_QPA_PLATFORM", "GDK_BACKEND"}
    case X11 => COMMON_KEYS + {"DISPLAY", "QT_QPA_PLATFORM", "GDK_BACKEND"}
    case Headless => COMMON_KEYS
  }

  lemma DefaultKeysHaveNoEquals(t: SessionType)
    ensures NoEquals(DefaultKeys(t))
  {
  }

  lemma DefaultsHaveTheseKeys(s: SessionSettings, l: SessionLocations, inheritedHome: Option<string>)
    ensures Defaults(s, l, inheritedHome).Keys == DefaultKeys(s.sessionType)
  {
  }

  /** The value each default variable has, unless it is configured. */
  ghost predicate Standard(r: map<string, string>, configured: set<string>, s: SessionSettings, l: SessionLocations,
    home: string)
  {
    && Has(r, configured, "USER", s.user) && Has(r, configured, "LOGNAME", s.user) && Has(r, configured, "HOME", home)
    && Has(r, configured, "XDG_RUNTIME_DIR", l.runtimeDir) && Has(r, configured, "XDG_CONFIG_HOME", home + "/.config")
    && Has(r, configured, "XDG_DATA_HOME", home + "/.local/share")
    && Has(r, configured, "XDG_CACHE_HOME", home + "/.cache")
    && Has(r, configured, "XDG_CURRENT_DESKTOP", "LDDE") && Has(r, configured, "XDG_SESSION_DESKTOP", "LDDE")
    && (s.sessionType == Wayland ==>
          && Has(r, configured, "WAYLAND_DISPLAY", l.waylandSocketName)
          && Has(r, configured, "XDG_SESSION_TYPE", "wayland")
          && Has(r, configured, "QT_QPA_PLATFORM", "wayland") && Has(r, configured, "GDK_BACKEND", "wayland"))
    && (s.sessionType == X11 ==>
          && Has(r, configured, "DISPLAY", s.x11Display) && Has(r, configured, "XDG_SESSION_TYPE", "x11")
          && Has(r, configured, "QT_QPA_PLATFORM", "xcb") && Has(r, configured, "GDK_BACKEND", "x11"))
    && (s.sessionType == Headless ==> Has(r, configured, "XDG_SESSION_TYPE", "headless"))
  }

  ghost predicate Has(r: map<string, string>, configured: set<string>, k: string, v: string) {
    k !in configured ==> k in r && r[k] == v
  }

  /** HOME as inherited, when that is set and not empty; otherwise by the user's name. */
  ghost function StandardHome(user: string, inherited: Option<string>): string {
    if inherited.None? || |inherited.value| == 0 then (if user == "root" then "/root" else "/home/" + user)
    else inherited.value
  }

  lemma UserKeys(user: string, home: string, runtimeDir: string)
    ensures var u := UserDefaults(user, home, runtimeDir);
            && u.Keys == {"USER", "LOGNAME", "HOME", "XDG_RUNTIME_DIR", "XDG_CONFIG_HOME", "XDG_DATA_HOME",
                          "XDG_CACHE_HOME"}
            && u["USER"] == user && u["LOGNAME"] == user && u["HOME"] == home && u["XDG_RUNTIME_DIR"] == runtimeDir
            && u["XDG_CONFIG_HOME"] == home + "/.config" && u["XDG_DATA_HOME"] == home + "/.local/share"
            && u["XDG_CACHE_HOME"] == home + "/.cache"
  {
    assert "USER"[0] == 'U' && "HOME"[0] == 'H' && "XDG_RUNTIME_DIR"[4] == 'R' && "XDG_CONFIG_HOME"[4] == 'C';
  }

  lemma TypeKeys(s: SessionSettings, l: SessionLocations)
    ensures var t := TypeDefaults(s, l);
            match s.sessionType
            case Wayland =>
              && t.Keys == {"WAYLAND_DISPLAY", "XDG_SESSION_TYPE", "QT_QPA_PLATFORM", "GDK_BACKEND"}
              && t["WAYLAND_DISPLAY"] == l.waylandSocketName && t["XDG_SESSION_TYPE"] == "wayland"
              && t["QT_QPA_PLATFORM"] == "wayland" && t["GDK_BACKEND"] == "wayland"
            case X11 =>
              && t.Keys == {"DISPLAY", "XDG_SESSION_TYPE", "QT_QPA_PLATFORM", "GDK_BACKEND"}
              && t["DISPLAY"] == s.x11Display && t["XDG_SESSION_TYPE"] == "x11"
              && t["QT_QPA_PLATFORM"] == "xcb" && t["GDK_BACKEND"] == "x11"
            case Headless => t.Keys == {"XDG_SESSION_TYPE"} && t["XDG_SESSION_TYPE"] == "headless"
  {
    assert "WAYLAND_DISPLAY"[0] == 'W' && "QT_QPA_PLATFORM"[0] == 'Q' && "XDG_SESSION_TYPE"[0] == 'X';
  }

  lemma DefaultKeysApart()
    ensures {"USER", "LOGNAME", "HOME", "XDG_RUNTIME_DIR", "XDG_CONFIG_HOME", "XDG_DATA_HOME", "XDG_CACHE_HOME"}
            !! {"WAYLAND_DISPLAY", "DISPLAY", "XDG_SESSION_TYPE", "QT_QPA_PLATFORM", "GDK_BACKEND"}
    ensures {"USER", "LOGNAME", "HOME", "XDG_RUNTIME_DIR", "XDG_CONFIG_HOME", "XDG_DATA_HOME", "XDG_CACHE_HOME"}
            !! DESKTOP_DEFAULTS.Keys
    ensures {"WAYLAND_DISPLAY", "DISPLAY", "XDG_SESSION_TYPE", "QT_QPA_PLATFORM", "GDK_BACKEND"}
            !! DESKTOP_DEFAULTS.Keys
  {
    assert "DISPLAY"[0] == 'D' && "LOGNAME"[0] == 'L' && "WAYLAND_DISPLAY"[0] == 'W' && "QT_QPA_PLATFORM"[0] == 'Q';
    assert "XDG_RUNTIME_DIR"[4] == 'R' && "XDG_CONFIG_HOME"[4] == 'C' && "GDK_BACKEND"[0] == 'G';
    assert "XDG_SESSION_TYPE"[4] == 'S' && "XDG_SESSION_TYPE"[12] == 'T';
    assert "XDG_CURRENT_DESKTOP"[4] == 'C' && "XDG_SESSION_DESKTOP"[4] == 'S';
  }

  lemma DesktopKeys()
    ensures DESKTOP_DEFAULTS.Keys == {"XDG_CURRENT_DESKTOP", "XDG_SESSION_DESKTOP"}
    ensures DESKTOP_DEFAULTS["XDG_CURRENT_DESKTOP"] == "LDDE" && DESKTOP_DEFAULTS["XDG_SESSION_DESKTOP"] == "LDDE"
  {
  }

  lemma DefaultsAreStandard(s: SessionSettings, l: SessionLocations, inheritedHome: Option<string>)
    ensures Standard(Defaults(s, l, inheritedHome), {}, s, l, StandardHome(s.user, inheritedHome))
  {
    UserKeys(s.user, HomeOf(s.user, inheritedHome), l.runtimeDir);
    TypeKeys(s, l);
    DesktopKeys();
    DefaultKeysApart();
  }

  lemma StandardStill(d: map<string, string>, inherited: map<string, string>, overrides: map<string, string>,
    s: SessionSettings, l: SessionLocations, home: string)
    requires Standard(d, {}, s, l, home)
    ensures Standard(inherited + d + overrides, overrides.Keys, s, l, home)
  {
  }

  /** A child's own variables laid over the session's leave the others standard. */
  lemma StandardInChild(m: map<string, string>, configured: set<string>, own: map<string, string>,
    s: SessionSettings, l: SessionLocations, home: string)
    requires Standard(m, configured, s, l, home)
    ensures Standard(m + own, configured + own.Keys, s, l, home)
  {
  }

  lemma ListedEntries(v: seq<string>, m: map<string, string>)
    requires Lists(v, m)
    ensures forall k :: k in m ==> Entry(k, m[k]) in v
  {
    var keys :| Renders(v, keys, m);
    forall k | k in m
      ensures Entry(k, m[k]) in v
    {
      var i :| 0 <= i < |keys| && keys[i] == k;
      assert v[i] == Entry(k, m[k]);
    }
  }

  lemma Layers(a: map<string, string>, b: map<string, string>, c: map<string, string>)
    ensures (a + b + c).Keys == a.Keys + b.Keys + c.Keys
    ensures NoEquals((a + b + c).Keys) <==> NoEquals(a.Keys) && NoEquals(b.Keys) && NoEquals(c.Keys)
  {
    var r := a + b + c;
    assert forall k :: k in a.Keys || k in b.Keys || k in c.Keys ==> k in r.Keys;
  }

  lemma LayersRegroup(a: map<string, string>, b: map<string, string>, c: map<string, string>, d: map<string, string>)
    ensures a + b + c + d == a + (b + c + d)
  {
  }

  /** Every default variable that is not configured has its standard value, configured variables win, and an
      inherited variable survives when it is neither a default nor configured; no key has an '=' exactly when
      no inherited and no configured one has. */
  lemma SessionDefaultsMean(inherited: map<string, string>, s: SessionSettings, l: SessionLocations,
    inheritedHome: Option<string>)
    ensures var r := SessionDefaults(inherited, s, l, inheritedHome);
            && r.Keys == inherited.Keys + DefaultKeys(s.sessionType) + s.overrides.Keys
            && (forall k :: k in s.overrides ==> r[k] == s.overrides[k])
            && Standard(r, s.overrides.Keys, s, l, StandardHome(s.user, inheritedHome))
            && (forall k :: k in inherited && k !in DefaultKeys(s.sessionType) + s.overrides.Keys ==>
                              r[k] == inherited[k])
            && (NoEquals(r.Keys) <==> NoEquals(inherited.Keys) && NoEquals(s.overrides.Keys))
  {
    DefaultKeysHaveNoEquals(s.sessionType);
    DefaultsHaveTheseKeys(s, l, inheritedHome);
    DefaultsAreStandard(s, l, inheritedHome);
    StandardStill(Defaults(s, l, inheritedHome), inherited, s.overrides, s, l, StandardHome(s.user, inheritedHome));
    Layers(inherited, Defaults(s, l, inheritedHome), s.overrides);
  }

  /** The variables configured by any text leave the session's keys without '='. */
  lemma ConfiguredKeysHaveNoEquals(content: string, base: LddmConfig, inherited: map<string, string>,
    s: SessionSettings, l: SessionLocations, inheritedHome: Option<string>)
    requires Parse(content, base).Success? && s.overrides == Parse(content, base).value.environment
    requires NoEquals(base.environment.Keys) && NoEquals(inherited.Keys)
    ensures NoEquals(SessionDefaults(inherited, s, l, inheritedHome).Keys)
  {
    EnvironmentKeysHaveNoEquals(State(base, ""), Lines(content));
    SessionDefaultsMean(inherited, s, l, inheritedHome);
  }

  /** The variables a session begins with. */
  function Inherited(system: map<string, string>): map<string, string> {
    map["SHELL" := "/bin/bash"] + (map["LANG" := "C.UTF-8"] + (map["TERM" := "xterm-256color"]
    + (map["PATH" := "/usr/local/bin:/usr/bin:/bin"] + (map k | k in system && k in BASE_KEYS :: system[k]))))
  }

  lemma BaseKeysDiffer()
    ensures "PATH" != "TERM" && "PATH" != "LANG" && "PATH" != "SHELL"
    ensures "TERM" != "LANG" && "TERM" != "SHELL" && "LANG" != "SHELL"
    ensures "LC_ALL" !in {"PATH", "TERM", "LANG", "SHELL"}
  {
    assert "PATH"[0] == 'P' && "TERM"[0] == 'T' && "LANG"[0] == 'L' && "SHELL"[0] == 'S' && "LC_ALL"[1] == 'C';
  }

  /** Exactly PATH, TERM, LANG and SHELL, with a standard value each when the system has none, and LC_ALL when
      it has one. */
  lemma InheritedMeans(system: map<string, string>)
    ensures var r := Inherited(system);
            && r.Keys == {"PATH", "TERM", "LANG", "SHELL"} + (system.Keys * {"LC_ALL"})
            && (forall k :: k in r && k in system ==> r[k] == system[k])
            && ("PATH" !in system ==> r["PATH"] == "/usr/local/bin:/usr/bin:/bin")
            && ("TERM" !in system ==> r["TERM"] == "xterm-256color")
            && ("LANG" !in system ==> r["LANG"] == "C.UTF-8")
            && ("SHELL" !in system ==> r["SHELL"] == "/bin/bash")
  {
    BaseKeysDiffer();
  }

  lemma InheritedKeysHaveNoEquals(system: map<string, string>)
    ensures NoEquals(Inherited(system).Keys)
  {
    InheritedMeans(system);
    assert NoEquals({"PATH", "TERM", "LANG", "SHELL", "LC_ALL"});
  }

  const BASE_KEYS: set<string> := {"PATH", "TERM", "LANG", "LC_ALL", "SHELL"}

  class SessionEnvironment {
    var variables: map<string, string>

    /** A few variables of the system's own environment, most of them with a value for when it is missing. */
    constructor (system: map<string, string>)
      ensures variables == Inherited(system)
    {
      variables := map k | k in system && k in BASE_KEYS :: system[k];
      new;
      SetDefault("PATH", "/usr/local/bin:/usr/bin:/bin");
      SetDefault("TERM", "xterm-256color");
      SetDefault("LANG", "C.UTF-8");
      SetDefault("SHELL", "/bin/bash");
    }

    method SetDefault(key: string, value: string)
      modifies this
      ensures variables == map[key := value] + old(variables)
    {
      if key !in variables {
        variables := variables[key := value];
      }
    }

    method Merge(overrides: map<string, string>)
      modifies this
      ensures variables == old(variables) + overrides
    {
      var todo := overrides.Keys;
      while todo != {}
        invariant todo <= overrides.Keys
        invariant variables == old(variables) + (map k | k in overrides && k !in todo :: overrides[k])
        decreases |todo|
      {
        var k :| k in todo;
        variables := variables[k := overrides[k]];
        todo := todo - {k};
      }
    }

    method PopulateSessionDefaults(s: SessionSettings, l: SessionLocations, inheritedHome: Option<string>)
      modifies this
      ensures variables == SessionDefaults(old(variables), s, l, inheritedHome)
    {
      var home := HomeOf(s.user, inheritedHome);
      LayersRegroup(variables, UserDefaults(s.user, home, l.runtimeDir), TypeDefaults(s, l), DESKTOP_DEFAULTS);
      variables := variables + UserDefaults(s.user, home, l.runtimeDir);
      variables := variables + TypeDefaults(s, l);
      variables := variables + DESKTOP_DEFAULTS;
      Merge(s.overrides);
    }

    method ToVector() returns (result: seq<string>)
      ensures Lists(result, variables)
    {
      result := RenderMap(variables);
    }
  }

  /** The entries of a map in whatever order iteration yields them. */
  method RenderMap(m: map<string, string>) returns (result: seq<string>)
    ensures Lists(result, m)
  {
    result := [];
    ghost var keys: seq<string> := [];
    var todo := m.Keys;
    while todo != {}
      invariant todo <= m.Keys
      invariant |result| == |keys|
      invariant forall i, j :: 0 <= i < j < |keys| ==> keys[i] != keys[j]
      invariant forall k :: k in keys <==> k in m && k !in todo
      invariant forall i :: 0 <= i < |keys| ==> keys[i] in m && result[i] == Entry(keys[i], m[keys[i]])
      decreases |todo|
    {
      var k :| k in todo;
      result := result + [Entry(k, m[k])];
      keys := keys + [k];
      todo := todo - {k};
    }
    assert Renders(result, keys, m);
  }

  /** The variables of one map laid over another. */
  method Overridden(base: map<string, string>, overrides: map<string, string>) returns (env: map<string, string>)
    ensures env == base + overrides
  {
    env := base;
    var todo := overrides.Keys;
    while todo != {}
      invariant todo <= overrides.Keys
      invariant env == base + (map k | k in overrides && k !in todo :: overrides[k])
      decreases |todo|
    {
      var k :| k in todo;
      env := env[k := overrides[k]];
      todo := todo - {k};
    }
  }

  /** The environment handed to a spawned process: base entries, then the specification's variables. */
  method MergeEnvironment(baseEnvironment: seq<string>, spec: map<string, string>)
    returns (finalEnv: seq<string>)
    ensures Lists(finalEnv, Rebuild(baseEnvironment) + spec)
  {
    var env: map<string, string> := map[];
    for i := 0 to |baseEnvironment|
      invariant env == Rebuild(baseEnvironment[..i])
    {
      var entry := baseEnvironment[i];
      assert baseEnvironment[..i + 1][..i] == baseEnvironment[..i];
      var eq := Find(entry, '=');
      if eq < |entry| {
        env := env[entry[..eq] := entry[eq + 1..]];
      }
    }
    assert baseEnvironment[..|baseEnvironment|] == baseEnvironment;
    env := Overridden(env, spec);
    finalEnv := RenderMap(env);
  }

  // ---------------------------------------------------------------------------------------
  // Round trip

  lemma EntrySplits(k: string, v: string)
    requires '=' !in k
    ensures HasEquals(Entry(k, v)) && EntryKey(Entry(k, v)) == k && EntryValue(Entry(k, v)) == v
  {
    var e := Entry(k, v);
    forall i | 0 <= i < |k|
      ensures e[i] != '='
    {
      assert e[i] == k[i];
    }
    FindIs(e, '=', |k|);
  }

  lemma {:induction false} RebuildPrefix(v: seq<string>, keys: seq<string>, m: map<string, string>, n: nat)
    requires Renders(v, keys, m) && NoEquals(m.Keys) && n <= |v|
    ensures Rebuild(v[..n]) == map k | k in m && k in keys[..n] :: m[k]
  {
    if n > 0 {
      RebuildPrefix(v, keys, m, n - 1);
      assert v[..n][..n - 1] == v[..n - 1];
      assert keys[n - 1] in m;
      EntrySplits(keys[n - 1], m[keys[n - 1]]);
      assert keys[..n] == keys[..n - 1] + [keys[n - 1]];
    }
  }

  lemma {:induction false} RebuiltKeysHaveNoEquals(v: seq<string>)
    ensures NoEquals(Rebuild(v).Keys)
  {
    if v != [] {
      RebuiltKeysHaveNoEquals(v[..|v| - 1]);
    }
  }

  /** Splitting a rendered map gives the map back, in any order of its entries, exactly when no key
      contains '='. */
  lemma EnvironmentRoundTrip(v: seq<string>, keys: seq<string>, m: map<string, string>)
    requires Renders(v, keys, m)
    ensures Rebuild(v) == m <==> NoEquals(m.Keys)
  {
    if NoEquals(m.Keys) {
      RebuildAll(v, keys, m);
    }
    RebuiltKeysHaveNoEquals(v);
  }

  lemma RebuildAll(v: seq<string>, keys: seq<string>, m: map<string, string>)
    requires Renders(v, keys, m) && NoEquals(m.Keys)
    ensures Rebuild(v) == m
  {
    RebuildPrefix(v, keys, m, |v|);
    assert v[..|v|] == v && keys[..|keys|] == keys;
  }

  /** The child gets one entry per variable, the specification overriding the session. */
  lemma ChildEnvironment(session: map<string, string>, vector: seq<string>, spec: map<string, string>, env: seq<string>)
    requires Lists(vector, session) && NoEquals(session.Keys)
    requires Lists(env, Rebuild(vector) + spec)
    ensures Lists(env, session + spec) && |env| == |session.Keys + spec.Keys|
    ensures forall k :: k in spec ==> Entry(k, spec[k]) in env
    ensures forall k :: k in session && k !in spec ==> Entry(k, session[k]) in env
  {
    var vectorKeys :| Renders(vector, vectorKeys, session);
    EnvironmentRoundTrip(vector, vectorKeys, session);
    var m := session + spec;
    var keys :| Renders(env, keys, m);
    forall k | k in m
      ensures Entry(k, m[k]) in env
    {
      var i :| 0 <= i < |keys| && keys[i] == k;
      assert env[i] == Entry(k, m[k]);
    }
    DistinctCount(keys, m.Keys);
    assert m.Keys == session.Keys + spec.Keys;
  }

  lemma {:induction false} DistinctCount(keys: seq<string>, s: set<string>)
    requires forall i, j :: 0 <= i < j < |keys| ==> keys[i] != keys[j]
    requires forall k :: k in s <==> k in keys
    ensures |keys| == |s|
  {
    if keys == [] {
      assert s == {};
    } else {
      var last := keys[|keys| - 1];
      assert forall k :: k in s - {last} <==> k in keys[..|keys| - 1];
      DistinctCount(keys[..|keys| - 1], s - {last});
    }
  }
}
