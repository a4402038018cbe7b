/** Character-level text handling shared by the configuration parser, the migrator and the
    readiness file reader: trimming, splitting a stream into lines, prefix tests, ASCII lower case. */
module Text {

  predicate IsBlank(c: char) {
    c == ' ' || c == '\t' || c == '\r' || c == '\n'
  }

  lemma BlankChars(c: char)
    ensures IsBlank(c) <==> c in {' ', '\t', '\r', '\n'}
  {
  }

  predicate AllBlank(s: string) {
    forall i :: 0 <= i < |s| ==> IsBlank(s[i])
  }

  function TrimLeft(s: string): string {
    if s != "" && IsBlank(s[0]) then TrimLeft(s[1..]) else s
  }

  function TrimRight(s: string): string {
    if s != "" && IsBlank(s[|s| - 1]) then TrimRight(s[..|s| - 1]) else s
  }

  function Trim(s: string): string {
    TrimRight(TrimLeft(s))
  }

  /** Whether trimming has nothing to remove. */
  predicate Tight(s: string) {
    s == "" || (!IsBlank(s[0]) && !IsBlank(s[|s| - 1]))
  }

  lemma {:induction false} TrimLeftSplits(s: string) returns (a: string)
    ensures s == a + TrimLeft(s) && AllBlank(a)
    ensures TrimLeft(s) != "" ==> !IsBlank(TrimLeft(s)[0])
  {
    if s != "" && IsBlank(s[0]) {
      var a' := TrimLeftSplits(s[1..]);
      a := [s[0]] + a';
    } else {
      a := "";
    }
  }

  lemma {:induction false} TrimRightSplits(s: string) returns (b: string)
    ensures s == TrimRight(s) + b && AllBlank(b)
    ensures TrimRight(s) != "" ==> !IsBlank(TrimRight(s)[|TrimRight(s)| - 1]) && TrimRight(s)[0] == s[0]
  {
    if s != "" && IsBlank(s[|s| - 1]) {
      var b' := TrimRightSplits(s[..|s| - 1]);
      b := b' + [s[|s| - 1]];
    } else {
      b := "";
    }
  }

  /** Trimming removes exactly a blank prefix and a blank suffix and leaves no blank end. */
  lemma TrimIsCore(s: string) returns (a: string, b: string)
    ensures s == a + Trim(s) + b
    ensures AllBlank(a) && AllBlank(b) && Tight(Trim(s))
  {
    a := TrimLeftSplits(s);
    b := TrimRightSplits(TrimLeft(s));
  }

  /** A tight text is its own trimming. */
  lemma TrimOfTight(s: string)
    requires Tight(s)
    ensures Trim(s) == s
  {
  }

  lemma {:induction false} TrimLeftPadded(a: string, s: string)
    requires AllBlank(a)
    ensures TrimLeft(a + s) == TrimLeft(s)
  {
    if a == "" {
      assert a + s == s;
    } else {
      assert (a + s)[1..] == a[1..] + s;
      TrimLeftPadded(a[1..], s);
    }
  }

  lemma {:induction false} TrimRightPadded(s: string, b: string)
    requires AllBlank(b)
    ensures TrimRight(s + b) == TrimRight(s)
  {
    if b == "" {
      assert s + b == s;
    } else {
      assert (s + b)[..|s + b| - 1] == s + b[..|b| - 1];
      TrimRightPadded(s, b[..|b| - 1]);
    }
  }

  /** Blanks around a tight text are what trimming removes. */
  lemma TrimBetween(a: string, s: string, b: string)
    requires AllBlank(a) && AllBlank(b) && Tight(s) && s != ""
    ensures Trim(a + s + b) == s
  {
    assert a + s + b == a + (s + b);
    TrimLeftPadded(a, s + b);
    assert TrimLeft(s + b) == s + b;
    TrimRightPadded(s, b);
    TrimOfTight(s);
  }

  function LowerChar(c: char): char {
    if 'A' <= c <= 'Z' then ((c as int) + 32) as char else c
  }

  function Lower(s: string): string {
    seq(|s|, i requires 0 <= i < |s| => LowerChar(s[i]))
  }

  predicate StartsWith(s: string, prefix: string) {
    |prefix| <= |s| && s[..|prefix|] == prefix
  }

  /** Position of the first c in s, or |s| when there is none. */
  function Find(s: string, c: char): (n: nat)
    ensures n <= |s|
    ensures n < |s| ==> s[n] == c
    ensures forall i :: 0 <= i < n ==> s[i] != c
  {
    if s == "" || s[0] == c then 0 else 1 + Find(s[1..], c)
  }

  predicate NoEquals(keys: set<string>) {
    forall k :: k in keys ==> '=' !in k
  }

  lemma FindIs(s: string, c: char, n: nat)
    requires n <= |s| && (n < |s| ==> s[n] == c)
    requires forall i :: 0 <= i < n ==> s[i] != c
    ensures Find(s, c) == n
  {
    var m := Find(s, c);
    assert !(m < n) && !(n < m);
  }

  // ---------------------------------------------------------------------------------------
  // Lines of a stream

  /** What repeated getline calls deliver: text between newlines, a final unterminated piece only
      when it is not empty. */
  function Lines(s: string): seq<string> {
    if s == "" then []
    else
      var n := Find(s, '\n');
      if n == |s| then [s] else [s[..n]] + Lines(s[n + 1..])
  }

  /** Each line followed by a newline. */
  function Unlines(ls: seq<string>): string {
    if ls == [] then "" else ls[0] + "\n" + Unlines(ls[1..])
  }

  predicate IsLine(l: string) {
    forall i :: 0 <= i < |l| ==> l[i] != '\n'
  }

  predicate AreLines(ls: seq<string>) {
    forall i :: 0 <= i < |ls| ==> IsLine(ls[i])
  }

  lemma {:induction false} LinesAreLines(s: string)
    ensures AreLines(Lines(s))
  {
    if s != "" {
      var n := Find(s, '\n');
      if n < |s| {
        LinesAreLines(s[n + 1..]);
      }
    }
  }

  /** Reading back what was written line by line. */
  lemma {:induction false} LinesOfUnlines(ls: seq<string>)
    requires AreLines(ls)
    ensures Lines(Unlines(ls)) == ls
  {
    if ls != [] {
      var s := Unlines(ls);
      assert s == ls[0] + ("\n" + Unlines(ls[1..]));
      FindIs(s, '\n', |ls[0]|);
      assert s[..|ls[0]|] == ls[0];
      assert s[|ls[0]| + 1..] == Unlines(ls[1..]);
      LinesOfUnlines(ls[1..]);
    }
  }

  lemma {:induction false} UnlinesAppend(a: seq<string>, b: seq<string>)
    ensures Unlines(a + b) == Unlines(a) + Unlines(b)
  {
    if a == [] {
      assert a + b == b;
    } else {
      assert (a + b)[1..] == a[1..] + b;
      UnlinesAppend(a[1..], b);
    }
  }

  /** A stream begins with what stands before its first newline. */
  lemma LinesAt(s: string, n: nat)
    requires n <= |s| && s != "" && IsLine(s[..n]) && (n < |s| ==> s[n] == '\n')
    ensures Lines(s) == [s[..n]] + if n < |s| then Lines(s[n + 1..]) else []
  {
    assert forall i :: 0 <= i < n ==> s[i] == s[..n][i];
    FindIs(s, '\n', n);
    if n == |s| {
      assert s[..n] == s;
    }
  }

  /** One getline call on the stream `s` read up to `pos`. */
  method GetLine(s: string, pos: nat) returns (ok: bool, line: string, next: nat)
    requires pos <= |s|
    ensures ok <==> pos < |s|
    ensures ok ==> pos < next <= |s| && Lines(s[pos..]) == [line] + Lines(s[next..])
    ensures !ok ==> next == pos && Lines(s[pos..]) == []
  {
    if pos == |s| {
      return false, "", pos;
    }
    var i := pos;
    while i < |s| && s[i] != '\n'
      invariant pos <= i <= |s|
      invariant forall k :: pos <= k < i ==> s[k] != '\n'
    {
      i := i + 1;
    }
    ghost var rest := s[pos..];
    line := s[pos..i];
    assert rest[..i - pos] == line;
    LinesAt(rest, i - pos);
    if i == |s| {
      next := i;
      assert s[next..] == "";
    } else {
      next := i + 1;
      assert rest[i - pos + 1..] == s[next..];
    }
    ok := true;
  }
}
