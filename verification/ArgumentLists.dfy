/** Argument lists written with every item in double quotes, and what a configuration makes of them. The
    reader takes the outermost pair of quotes off the whole value before it looks for items. */
module ArgumentLists {
  import opened Results
  import opened Text
  import opened ConfigParser

  /** Every item in double quotes, followed by a space. */
  function RenderList(items: seq<string>): string {
    if items == [] then "" else "\"" + items[0] + "\" " + RenderList(items[1..])
  }

  predicate Quotable(items: seq<string>) {
    forall i :: 0 <= i < |items| ==> '"' !in items[i]
  }

  lemma {:induction false} QuotedItem(x: string, current: string, rest: string)
    requires '"' !in x
    ensures ItemsFrom(x + "\" " + rest, current, Inside('"')) == Flush(current + x) + ItemsFrom(rest, "", Outside)
  {
    var s := x + "\" " + rest;
    if x == "" {
      assert s[1..] == " " + rest && s[1..][1..] == rest;
      assert current + x == current;
    } else {
      assert x[0] in x;
      assert s[0] == x[0] && s[1..] == x[1..] + "\" " + rest;
      assert current + x == current + [x[0]] + x[1..];
      QuotedItem(x[1..], current + [x[0]], rest);
    }
  }

  lemma RenderedHead(items: seq<string>)
    requires items != [] && '"' !in items[0]
    ensures StringList(RenderList(items)) == Flush(items[0]) + StringList(RenderList(items[1..]))
  {
    var x, rest := items[0], RenderList(items[1..]);
    var s := RenderList(items);
    assert s == "\"" + (x + "\" " + rest);
    assert s[1..] == x + "\" " + rest;
    QuotedItem(x, "", rest);
    assert "" + x == x;
  }

  /** The items that survive: not blank, no blank ends, no pair of single quotes around them. */
  predicate Survives(x: string) {
    x != "" && Tight(x) && StripQuotes(x) == x
  }

  lemma FlushKeepsOnlySurvivors(x: string)
    ensures Flush(x) == [x] <==> Survives(x)
    ensures |Flush(x)| <= 1
  {
    var a, b := TrimIsCore(x);
    if Tight(x) {
      TrimOfTight(x);
    }
    assert |StripQuotes(Trim(x))| <= |Trim(x)|;
  }

  lemma {:induction false} RenderedListIsNoLonger(items: seq<string>)
    requires Quotable(items)
    ensures |StringList(RenderList(items))| <= |items|
  {
    if items != [] {
      RenderedHead(items);
      FlushKeepsOnlySurvivors(items[0]);
      RenderedListIsNoLonger(items[1..]);
    }
  }

  lemma {:induction false} QuotableRoundTrip(items: seq<string>)
    requires Quotable(items)
    ensures StringList(RenderList(items)) == items <==> forall i :: 0 <= i < |items| ==> Survives(items[i])
  {
    if items != [] {
      RenderedHead(items);
      FlushKeepsOnlySurvivors(items[0]);
      RenderedListIsNoLonger(items[1..]);
      QuotableRoundTrip(items[1..]);
      var tail := StringList(RenderList(items[1..]));
      assert items == [items[0]] + items[1..];
      if StringList(RenderList(items)) == items {
        assert |Flush(items[0])| == 1;
        assert Flush(items[0])[0] == items[0];
        assert tail == items[1..];
      }
      if forall i :: 0 <= i < |items| ==> Survives(items[i]) {
        assert forall i :: 0 <= i < |items[1..]| ==> Survives(items[1..][i]);
      }
      if Survives(items[0]) && forall i :: 0 <= i < |items[1..]| ==> Survives(items[1..][i]) {
        assert forall i :: 1 <= i < |items| ==> items[i] == items[1..][i - 1];
      }
    }
  }

  /** A quoted list is read back exactly when every item survives reading and none contains a double quote. */
  lemma StringListRoundTrip(items: seq<string>)
    ensures StringList(RenderList(items)) == items <==>
              Quotable(items) && forall i :: 0 <= i < |items| ==> Survives(items[i])
  {
    if StringList(RenderList(items)) == items {
      ReadBackIsQuotable(items);
    }
    if Quotable(items) {
      QuotableRoundTrip(items);
    }
  }

  lemma ReadBackIsQuotable(items: seq<string>)
    requires StringList(RenderList(items)) == items
    ensures Quotable(items)
  {
    OccursInRendered(items);
    SingleQuotesAreNotMade(RenderList(items), "", Outside);
    assert forall i :: 0 <= i < |items| ==> Free(items[i], {'"'});
  }

  lemma {:induction false} OccursInRendered(items: seq<string>)
    ensures Occurs(RenderList(items), '\'') == OccursIn(items, '\'')
  {
    if items != [] {
      var rest := RenderList(items[1..]);
      OccursInRendered(items[1..]);
      assert RenderList(items) == "\"" + (items[0] + ("\" " + rest));
      OccursAppend("\"", items[0] + ("\" " + rest), '\'');
      OccursAppend(items[0], "\" " + rest, '\'');
      OccursAppend("\" ", rest, '\'');
      assert Occurs("\" ", '\'') == 0 by {
        assert "\" "[1..] == " " && " "[1..] == "";
      }
    }
  }

  // ---------------------------------------------------------------------------------------
  // What is left of a written list once the outermost quotes are gone

  /** The items with `" "` between them. */
  function Joined(items: seq<string>): string
    requires items != []
  {
    if |items| == 1 then items[0] else items[0] + "\" \"" + Joined(items[1..])
  }

  lemma {:induction false} RenderedIsJoined(items: seq<string>)
    requires items != []
    ensures RenderList(items) == "\"" + Joined(items) + "\" "
  {
    if |items| == 1 {
      assert RenderList(items[1..]) == "";
    } else {
      RenderedIsJoined(items[1..]);
    }
  }

  /** The value of the list as the reader passes it on. */
  function Unwrapped(items: seq<string>): string {
    if items == [] then "" else Joined(items)
  }

  lemma TrimBlankFirst(s: string)
    ensures Trim(" " + s) == Trim(s)
  {
    assert (" " + s)[1..] == s;
  }

  lemma TrimBlankLast(s: string)
    requires s != "" && !IsBlank(s[0])
    ensures Trim(s + " ") == Trim(s)
  {
    assert (s + " ")[..|s|] == s;
  }

  /** A line of the Weston section that sets the arguments. */
  lemma ArgumentLine(config: LddmConfig, items: seq<string>)
    ensures ParseLine(State(config, "weston"), "args = " + RenderList(items)) ==
              Success(State(config.(weston := config.weston.(additionalArgs := StringList(Unwrapped(items)))),
                "weston"))
  {
    var t := Trim("args = " + RenderList(items));
    ArgumentLineTrims(items);
    assert t[..6] == "args =";
    ArgumentKey(t);
    ArgumentValue(items, t);
    SetsArguments(config, Unwrapped(items));
  }

  lemma ArgumentKey(t: string)
    requires |t| >= 6 && t[..6] == "args ="
    ensures !IsSkipped(t) && !IsHeader(t) && Find(t, '=') == 5 && LineKey(t) == "args"
  {
    var key := "args =";
    assert t[0] == key[0] && t[5] == key[5];
    assert forall i :: 0 <= i < 5 ==> t[i] == key[i] && key[i] != '=';
    FindIs(t, '=', 5);
    assert t[..5] == "args" + " ";
    TrimBlankLast("args");
    TrimOfTight("args");
  }

  lemma SetsArguments(config: LddmConfig, value: string)
    ensures Assign(config, "weston", "args", value) ==
              Success(config.(weston := config.weston.(additionalArgs := StringList(value))))
  {
    assert Lower("args") == "args";
  }

  /** The line without its blanks at the end. */
  lemma ArgumentLineTrims(items: seq<string>)
    ensures Trim("args = " + RenderList(items)) ==
              if items == [] then "args =" else "args = " + "\"" + Joined(items) + "\""
  {
    if items == [] {
      TrimBlankLast("args =");
      TrimOfTight("args =");
      assert "args = " + RenderList(items) == "args =" + " ";
    } else {
      RenderedIsJoined(items);
      var t := "args = " + "\"" + Joined(items) + "\"";
      TrimBlankLast(t);
      TrimOfTight(t);
      assert "args = " + RenderList(items) == t + " ";
    }
  }

  lemma ArgumentValue(items: seq<string>, t: string)
    requires t == if items == [] then "args =" else "args = " + "\"" + Joined(items) + "\""
    requires Find(t, '=') == 5
    ensures LineValue(t) == Unwrapped(items)
  {
    if items == [] {
      assert t[6..] == "";
    } else {
      var v := "\"" + Joined(items) + "\"";
      assert t[6..] == " " + v;
      TrimBlankFirst(v);
      TrimOfTight(v);
      assert v[1..|v| - 1] == Joined(items);
    }
  }

  // ---------------------------------------------------------------------------------------
  // Which lists are read back

  predicate Free(s: string, cs: set<char>) {
    forall i :: 0 <= i < |s| ==> s[i] !in cs
  }

  predicate AllFree(ss: seq<string>, cs: set<char>) {
    forall i :: 0 <= i < |ss| ==> Free(ss[i], cs)
  }

  const QUOTES: set<char> := {'"', '\''}
  const SEPARATORS: set<char> := {',', ' '}

  /** An item that needs no quotes at all, on one line. */
  predicate Bare(x: string) {
    x != "" && Tight(x) && Free(x, QUOTES + SEPARATORS)
  }

  function Occurs(s: string, c: char): nat {
    if s == "" then 0 else (if s[0] == c then 1 else 0) + Occurs(s[1..], c)
  }

  function OccursIn(ss: seq<string>, c: char): nat {
    if ss == [] then 0 else Occurs(ss[0], c) + OccursIn(ss[1..], c)
  }

  lemma {:induction false} OccursAppend(s: string, t: string, c: char)
    ensures Occurs(s + t, c) == Occurs(s, c) + Occurs(t, c)
  {
    if s == "" {
      assert s + t == t;
    } else {
      assert (s + t)[1..] == s[1..] + t;
      OccursAppend(s[1..], t, c);
    }
  }

  lemma {:induction false} OccursInAppend(s: seq<string>, t: seq<string>, c: char)
    ensures OccursIn(s + t, c) == OccursIn(s, c) + OccursIn(t, c)
  {
    if s == [] {
      assert s + t == t;
    } else {
      assert (s + t)[1..] == s[1..] + t;
      OccursInAppend(s[1..], t, c);
    }
  }

  lemma {:induction false} OccursInJoined(items: seq<string>)
    requires items != []
    ensures Occurs(Joined(items), '\'') == OccursIn(items, '\'')
  {
    if |items| > 1 {
      var gap := "\" \"";
      OccursInJoined(items[1..]);
      OccursAppend(items[0] + gap, Joined(items[1..]), '\'');
      OccursAppend(items[0], gap, '\'');
      assert Occurs(gap, '\'') == 0 by {
        assert gap[1..] == " \"" && gap[1..][1..] == "\"" && gap[1..][1..][1..] == "";
      }
    } else {
      assert items[1..] == [];
    }
  }

  lemma OccursInPart(a: string, s: string, b: string, c: char)
    ensures Occurs(s, c) <= Occurs(a + s + b, c)
  {
    OccursAppend(a + s, b, c);
    OccursAppend(a, s, c);
  }

  /** A closed item is a piece of what was collected. */
  lemma FlushIsPiece(current: string) returns (a: string, b: string)
    ensures Flush(current) != [] ==> |Flush(current)| == 1 && current == a + Flush(current)[0] + b
  {
    var c, d := TrimIsCore(current);
    var t := Trim(current);
    var u := StripQuotes(t);
    a, b := c, d;
    if u != t {
      a, b := c + [t[0]], [t[|t| - 1]] + d;
      assert t == [t[0]] + u + [t[|t| - 1]];
    }
  }

  lemma FlushAddsNothing(current: string)
    ensures OccursIn(Flush(current), '\'') <= Occurs(current, '\'')
  {
    var a, b := FlushIsPiece(current);
    if Flush(current) != [] {
      OccursInPart(a, Flush(current)[0], b, '\'');
      assert Flush(current)[1..] == [];
    }
  }

  lemma FlushIsFree(current: string, cs: set<char>)
    requires Free(current, cs)
    ensures AllFree(Flush(current), cs)
  {
    var a, b := FlushIsPiece(current);
    if Flush(current) != [] {
      var u := Flush(current)[0];
      assert forall i :: 0 <= i < |u| ==> u[i] == current[|a| + i];
    }
  }

  lemma AllFreeAppend(s: seq<string>, t: seq<string>, cs: set<char>)
    ensures AllFree(s + t, cs) <==> AllFree(s, cs) && AllFree(t, cs)
  {
    assert forall i :: 0 <= i < |s| ==> (s + t)[i] == s[i];
    assert forall i :: 0 <= i < |t| ==> (s + t)[|s| + i] == t[i];
  }

  /** Reading never adds a single quote; and if it loses none, no single-quoted part was ever open, so no
      double quote gets into an item. */
  lemma {:induction false} SingleQuotesAreNotMade(val: string, current: string, q: Quote)
    requires q == Outside || q.c in QUOTES
    ensures OccursIn(ItemsFrom(val, current, q), '\'') <= Occurs(current, '\'') + Occurs(val, '\'')
    ensures OccursIn(ItemsFrom(val, current, q), '\'') == Occurs(current, '\'') + Occurs(val, '\'')
            && q != Inside('\'') && Free(current, {'"'})
            ==> AllFree(ItemsFrom(val, current, q), {'"'})
    decreases |val|
  {
    if Free(current, {'"'}) {
      FlushIsFree(current, {'"'});
    }
    FlushAddsNothing(current);
    if val != "" {
      var c, rest := val[0], val[1..];
      OccursAppend(current, [c], '\'');
      assert Occurs([c], '\'') == if c == '\'' then 1 else 0;
      if q == Outside && (c == '"' || c == '\'') {
        SingleQuotesAreNotMade(rest, current, Inside(c));
      } else if q == Inside(c) {
        SingleQuotesAreNotMade(rest, current, Outside);
      } else if q == Outside && (c == ',' || c == ' ') {
        SingleQuotesAreNotMade(rest, "", Outside);
        OccursInAppend(Flush(current), ItemsFrom(rest, "", Outside), '\'');
        AllFreeAppend(Flush(current), ItemsFrom(rest, "", Outside), {'"'});
      } else {
        assert q != Inside('\'') && Free(current, {'"'}) ==> Free(current + [c], {'"'});
        SingleQuotesAreNotMade(rest, current + [c], q);
      }
    }
  }

  /** One step into a joined list whose first item is not empty. */
  function Behead(items: seq<string>): seq<string>
    requires items != [] && items[0] != ""
  {
    [items[0][1..]] + items[1..]
  }

  lemma JoinedBeheaded(items: seq<string>)
    requires items != [] && items[0] != ""
    ensures Joined(items)[0] == items[0][0] && Joined(items)[1..] == Joined(Behead(items))
  {
    assert Behead(items)[1..] == items[1..];
  }

  /** Stepping over the gap between two items: with no quote open a blank is collected, within single
      quotes the gap itself. */
  lemma OverTheGap(items: seq<string>, current: string)
    requires |items| > 1 && items[0] == ""
    ensures ItemsFrom(Joined(items), current, Outside) == ItemsFrom(Joined(items[1..]), current + " ", Outside)
    ensures ItemsFrom(Joined(items), current, Inside('\'')) ==
              ItemsFrom(Joined(items[1..]), current + "\" \"", Inside('\''))
  {
    var rest := Joined(items[1..]);
    assert Joined(items) == ['"'] + ([' '] + (['"'] + rest));
    ReadOne('"', [' '] + (['"'] + rest), current, Outside);
    ReadOne(' ', ['"'] + rest, current, Inside('"'));
    ReadOne('"', rest, current + " ", Inside('"'));
    ReadOne('"', [' '] + (['"'] + rest), current, Inside('\''));
    ReadOne(' ', ['"'] + rest, current + ['"'], Inside('\''));
    ReadOne('"', rest, current + ['"'] + [' '], Inside('\''));
    assert current + ['"'] + [' '] + ['"'] == current + "\" \"";
  }

  lemma ReadOne(c: char, rest: string, current: string, q: Quote)
    ensures ItemsFrom([c] + rest, current, q) ==
              if q == Outside && (c == '"' || c == '\'') then ItemsFrom(rest, current, Inside(c))
              else if q == Inside(c) then ItemsFrom(rest, current, Outside)
              else if q == Outside && (c == ',' || c == ' ') then Flush(current) + ItemsFrom(rest, "", Outside)
              else ItemsFrom(rest, current + [c], q)
  {
    assert ([c] + rest)[1..] == rest;
  }

  /** Items without double quotes lose every single quote. */
  lemma {:induction false} SingleQuotesVanish(items: seq<string>, current: string, q: Quote)
    requires items != [] && AllFree(items, {'"'}) && Free(current, {'\''}) && (q == Outside || q == Inside('\''))
    ensures AllFree(ItemsFrom(Joined(items), current, q), {'\''})
    decreases |items|, |items[0]|
  {
    if items[0] != "" {
      var c := items[0][0];
      JoinedBeheaded(items);
      assert AllFree(Behead(items), {'"'}) by {
        assert forall i :: 0 <= i < |items[0][1..]| ==> items[0][1..][i] == items[0][i + 1];
        assert Free(items[0], {'"'});
      }
      assert c != '"' by {
        assert Free(items[0], {'"'});
      }
      FlushIsFree(current, {'\''});
      if c == '\'' {
        SingleQuotesVanish(Behead(items), current, if q == Outside then Inside('\'') else Outside);
      } else if q == Outside && (c == ',' || c == ' ') {
        SingleQuotesVanish(Behead(items), "", Outside);
        AllFreeAppend(Flush(current), ItemsFrom(Joined(Behead(items)), "", Outside), {'\''});
      } else {
        SingleQuotesVanish(Behead(items), current + [c], q);
      }
    } else if |items| == 1 {
      FlushIsFree(current, {'\''});
    } else {
      OverTheGap(items, current);
      SingleQuotesVanish(items[1..], current + if q == Outside then " " else "\" \"", q);
    }
  }

  /** Without quotes in it a closed item is what was collected, trimmed. */
  lemma FlushWithoutQuotes(current: string)
    requires Free(current, QUOTES)
    ensures Flush(current) == if Trim(current) == "" then [] else [Trim(current)]
    ensures forall i :: 0 <= i < |Flush(current)| ==> Flush(current)[i] != "" && Tight(Flush(current)[i])
  {
    var a, b := TrimIsCore(current);
    if Trim(current) != "" {
      assert Trim(current)[0] == current[|a|];
    }
  }

  predicate Tidy(items: seq<string>) {
    forall i :: 0 <= i < |items| ==> items[i] != "" && Tight(items[i]) && ',' !in items[i]
  }

  /** Items without quotes are read as tidy ones. */
  lemma {:induction false} ReadAsTidy(items: seq<string>, current: string)
    requires items != [] && AllFree(items, QUOTES) && Free(current, QUOTES + {','})
    ensures Tidy(ItemsFrom(Joined(items), current, Outside))
    decreases |items|, |items[0]|
  {
    FlushWithoutQuotes(current);
    FlushIsFree(current, QUOTES + {','});
    assert forall i :: 0 <= i < |Flush(current)| ==> Free(Flush(current)[i], QUOTES + {','});
    if items[0] != "" {
      var c := items[0][0];
      JoinedBeheaded(items);
      BeheadedIsFree(items);
      ReadAsTidy(Behead(items), if c == ',' || c == ' ' then "" else current + [c]);
    } else if |items| > 1 {
      OverTheGap(items, current);
      ReadAsTidy(items[1..], current + " ");
    }
  }

  lemma BeheadedIsFree(items: seq<string>)
    requires items != [] && items[0] != "" && AllFree(items, QUOTES)
    ensures AllFree(Behead(items), QUOTES) && items[0][0] !in QUOTES
  {
    assert Free(items[0], QUOTES);
    assert forall i :: 0 <= i < |items[0][1..]| ==> items[0][1..][i] == items[0][i + 1];
  }

  /** What is collected already can only grow until the item is closed. */
  lemma {:induction false} FirstItemGrows(items: seq<string>, current: string, n: nat)
    requires items != [] && AllFree(items, QUOTES) && Free(current, QUOTES)
    requires current != "" && !IsBlank(current[0]) && 0 < n <= |TrimRight(current)|
    ensures var r := ItemsFrom(Joined(items), current, Outside); r != [] && |r[0]| >= n
    decreases |items|, |items[0]|
  {
    FlushWithoutQuotes(current);
    if items[0] != "" {
      var c := items[0][0];
      JoinedBeheaded(items);
      BeheadedIsFree(items);
      if c != ',' && c != ' ' {
        var b := TrimRightSplits(current);
        assert (current + [c])[..|current|] == current;
        FirstItemGrows(Behead(items), current + [c], n);
      }
    } else if |items| > 1 {
      OverTheGap(items, current);
      assert (current + " ")[..|current|] == current;
      FirstItemGrows(items[1..], current + " ", n);
    }
  }

  /** Text without quotes or separators is collected as it is. */
  lemma {:induction false} BareIsCollected(x: string, rest: string, current: string)
    requires Free(x, QUOTES + SEPARATORS)
    ensures ItemsFrom(x + rest, current, Outside) == ItemsFrom(rest, current + x, Outside)
  {
    if x == "" {
      assert x + rest == rest && current + x == current;
    } else {
      assert (x + rest)[1..] == x[1..] + rest && current + [x[0]] + x[1..] == current + x;
      BareIsCollected(x[1..], rest, current + [x[0]]);
    }
  }

  lemma BareIsReadBack(x: string)
    requires Bare(x)
    ensures StringList(x) == [x]
  {
    BareIsCollected(x, "", "");
    assert x + "" == x && "" + x == x;
    FlushWithoutQuotes(x);
    TrimOfTight(x);
  }

  /** A first item with a blank in it is cut there. */
  lemma CutAtBlank(items: seq<string>, p: nat)
    requires items != [] && Tidy(items) && AllFree(items, QUOTES) && p == Find(items[0], ' ') < |items[0]|
    ensures StringList(Joined(items)) != items
  {
    var x := items[0];
    var head, rest := x[..p], Joined(items)[p + 1..];
    assert Free(x, QUOTES);
    assert Free(head, QUOTES + SEPARATORS);
    assert p > 0 && !IsBlank(x[0]);
    assert Joined(items)[..p] == head && Joined(items)[p] == ' ';
    assert Joined(items) == head + ([' '] + rest);
    BareIsCollected(head, [' '] + rest, "");
    assert "" + head == head && ([' '] + rest)[1..] == rest;
    assert StringList(Joined(items)) == Flush(head) + ItemsFrom(rest, "", Outside);
    FlushWithoutQuotes(head);
    var b := TrimRightSplits(head);
    assert TrimRight(head) != "";
  }

  /** A first item without one runs into the second. */
  lemma RunsIntoTheNext(items: seq<string>)
    requires |items| > 1 && Tidy(items) && AllFree(items, QUOTES) && ' ' !in items[0]
    ensures StringList(Joined(items)) != items
  {
    var x, left := items[0], items[1..];
    assert Free(x, QUOTES) && Free(x, QUOTES + SEPARATORS);
    OntoTheNext(items);
    assert left[0] == items[1] && AllFree(left, QUOTES) && Free(left[0], QUOTES);
    ReachesFurther(left, x);
  }

  /** With a plain first item the reader arrives at the second with the first still collected. */
  lemma OntoTheNext(items: seq<string>)
    requires |items| > 1 && Free(items[0], QUOTES + SEPARATORS)
    ensures StringList(Joined(items)) == ItemsFrom(Joined(items[1..]), items[0] + " ", Outside)
  {
    var x, gone := items[0], [""] + items[1..];
    assert gone[1..] == items[1..];
    assert Joined(items) == x + Joined(gone);
    BareIsCollected(x, Joined(gone), "");
    assert "" + x == x;
    OverTheGap(gone, x);
  }

  lemma ReachesFurther(left: seq<string>, x: string)
    requires left != [] && AllFree(left, QUOTES) && x != "" && Tight(x) && Free(x, QUOTES)
    requires left[0] != "" && !IsBlank(left[0][0]) && left[0][0] != ','
    ensures var r := ItemsFrom(Joined(left), x + " ", Outside); r != [] && |r[0]| > |x|
  {
    var c := left[0][0];
    JoinedBeheaded(left);
    BeheadedIsFree(left);
    FirstItemGrows(Behead(left), x + " " + [c], |x| + 2);
  }

  /** What the line that sets the arguments makes of a list. */
  lemma LineReadsBack(config: LddmConfig, items: seq<string>)
    ensures var r := ParseLine(State(config, "weston"), "args = " + RenderList(items));
            && r.Success? && r.value == State(config.(weston := r.value.config.weston), "weston")
            && (r.value.config.weston.additionalArgs == items <==> items == [] || (|items| == 1 && Bare(items[0])))
  {
    ArgumentLine(config, items);
    if |items| == 1 && Bare(items[0]) {
      BareIsReadBack(items[0]);
      assert items == [items[0]];
    }
    if items != [] && StringList(Joined(items)) == items {
      ReadBackIsBare(items);
    }
  }

  lemma ReadBackIsBare(items: seq<string>)
    requires items != [] && StringList(Joined(items)) == items
    ensures |items| == 1 && Bare(items[0])
  {
    OccursInJoined(items);
    SingleQuotesAreNotMade(Joined(items), "", Outside);
    SingleQuotesVanish(items, "", Outside);
    assert AllFree(items, QUOTES) by {
      forall i | 0 <= i < |items|
        ensures Free(items[i], QUOTES)
      {
        assert Free(items[i], {'"'}) && Free(items[i], {'\''});
      }
    }
    ReadAsTidy(items, "");
    var p := Find(items[0], ' ');
    if p < |items[0]| {
      CutAtBlank(items, p);
    } else if |items| > 1 {
      RunsIntoTheNext(items);
    }
    assert Free(items[0], QUOTES);
    assert Free(items[0], QUOTES + SEPARATORS);
  }

  // ---------------------------------------------------------------------------------------
  // A whole text

  /** The configuration text that sets the arguments and nothing else. */
  function Written(items: seq<string>): string {
    "[weston]\n" + "args = " + RenderList(items) + "\n"
  }

  /** An item that comes back from a text: on one line, and in no need of quotes. */
  predicate Plain(x: string) {
    IsLine(x) && Bare(x)
  }

  lemma {:induction false} RenderedIsLine(items: seq<string>)
    ensures IsLine(RenderList(items)) <==> AreLines(items)
  {
    if items != [] {
      var rest := RenderList(items[1..]);
      RenderedIsLine(items[1..]);
      var s := RenderList(items);
      assert s == "\"" + items[0] + "\" " + rest;
      assert forall i :: 0 <= i < |items[0]| ==> s[1 + i] == items[0][i];
      assert forall i :: 0 <= i < |rest| ==> s[|items[0]| + 3 + i] == rest[i];
      assert s[0] == '"' && s[|items[0]| + 1] == '"' && s[|items[0]| + 2] == ' ';
      assert forall i :: 0 <= i < |items[1..]| ==> items[1..][i] == items[i + 1];
    }
  }

  lemma FirstLine(line: string, rest: string)
    requires IsLine(line)
    ensures Lines(line + "\n" + rest) == [line] + Lines(rest)
  {
    var s := line + "\n" + rest;
    FindIs(s, '\n', |line|);
    assert s[..|line|] == line && s[|line| + 1..] == rest;
  }

  lemma WestonHeader(base: LddmConfig)
    ensures ParseLine(State(base, ""), "[weston]") == Success(State(base, "weston"))
  {
    TrimOfTight("[weston]");
    assert HeaderName("[weston]") == "weston";
    TrimOfTight("weston");
    assert Lower("weston") == "weston";
  }

  /** After its header the text is read in the Weston section. */
  lemma WrittenMeaning(base: LddmConfig, items: seq<string>)
    ensures Parse(Written(items), base) ==
              ParseLines(State(base, "weston"), Lines("args = " + RenderList(items) + "\n"))
  {
    var rest := "args = " + RenderList(items) + "\n";
    assert Written(items) == "[weston]" + "\n" + rest;
    assert IsLine("[weston]");
    FirstLine("[weston]", rest);
    WestonHeader(base);
    assert (["[weston]"] + Lines(rest))[1..] == Lines(rest);
  }

  /** With every item on one line the text has one line more. */
  lemma OneArgumentLine(base: LddmConfig, items: seq<string>)
    requires AreLines(items)
    ensures Parse(Written(items), base) ==
              Success(base.(weston := base.weston.(additionalArgs := StringList(Unwrapped(items)))))
  {
    var line := "args = " + RenderList(items);
    WrittenMeaning(base, items);
    RenderedIsLine(items);
    assert IsLine(line);
    assert line + "\n" + "" == line + "\n";
    FirstLine(line, "");
    ArgumentLine(base, items);
    assert [line][1..] == [];
  }

  lemma {:induction false} ItemsAreFree(val: string, current: string, q: Quote, cs: set<char>)
    requires Free(val, cs) && Free(current, cs)
    ensures AllFree(ItemsFrom(val, current, q), cs)
    decreases |val|
  {
    FlushIsFree(current, cs);
    if val != "" {
      var c := val[0];
      assert Free(val[1..], cs) && Free(current + [c], cs);
      if q == Outside && (c == '"' || c == '\'') {
        ItemsAreFree(val[1..], current, Inside(c), cs);
      } else if q == Inside(c) {
        ItemsAreFree(val[1..], current, Outside, cs);
      } else if q == Outside && (c == ',' || c == ' ') {
        ItemsAreFree(val[1..], "", Outside, cs);
        AllFreeAppend(Flush(current), ItemsFrom(val[1..], "", Outside), cs);
      } else {
        ItemsAreFree(val[1..], current + [c], q, cs);
      }
    }
  }

  lemma ValueIsLine(line: string)
    requires IsLine(line)
    ensures var t := Trim(line); Find(t, '=') < |t| ==> IsLine(LineValue(t))
  {
    var t := Trim(line);
    TrimIsLine(line);
    if Find(t, '=') < |t| {
      TrimIsLine(t[Find(t, '=') + 1..]);
    }
  }

  lemma TrimIsLine(s: string)
    requires IsLine(s)
    ensures IsLine(Trim(s)) && IsLine(StripQuotes(Trim(s)))
  {
    var a, b := TrimIsCore(s);
    PartIsLine(a, Trim(s), b);
  }

  lemma PartIsLine(a: string, s: string, b: string)
    requires IsLine(a + s + b)
    ensures IsLine(s)
  {
    assert forall i :: 0 <= i < |s| ==> s[i] == (a + s + b)[|a| + i];
  }

  lemma ListOfLine(value: string)
    requires IsLine(value)
    ensures AreLines(StringList(value))
  {
    ItemsAreFree(value, "", Outside, {'\n'});
    forall i | 0 <= i < |StringList(value)|
      ensures IsLine(StringList(value)[i])
    {
      assert Free(StringList(value)[i], {'\n'});
    }
  }

  lemma LineKeepsArgumentsLines(st: State, line: string)
    requires IsLine(line) && AreLines(st.config.weston.additionalArgs)
    ensures ParseLine(st, line).Success? ==> AreLines(ParseLine(st, line).value.config.weston.additionalArgs)
  {
    var t := Trim(line);
    ValueIsLine(line);
    if Find(t, '=') < |t| {
      ListOfLine(LineValue(t));
      AssignKeepsArguments(st.config, st.section, LineKey(t), LineValue(t));
    }
  }

  lemma AssignKeepsArguments(config: LddmConfig, section: string, key: string, value: string)
    ensures var r := Assign(config, section, key, value);
            r.Success? ==> r.value.weston.additionalArgs in {config.weston.additionalArgs, StringList(value)}
  {
  }

  /** No reading puts an item with a newline into the arguments. */
  lemma {:induction false} ArgumentsStayLines(st: State, lines: seq<string>)
    requires AreLines(lines) && AreLines(st.config.weston.additionalArgs)
    ensures ParseLines(st, lines).Success? ==> AreLines(ParseLines(st, lines).value.weston.additionalArgs)
    decreases |lines|
  {
    if lines != [] {
      LineKeepsArgumentsLines(st, lines[0]);
      var next := ParseLine(st, lines[0]);
      if next.Success? {
        ArgumentsStayLines(next.value, lines[1..]);
      }
    }
  }

  /** The first line of the list sets the arguments, whatever follows. */
  lemma FirstLineSets(base: LddmConfig, head: string)
    requires IsLine(head)
    ensures var r := ParseLine(State(base, "weston"), "args = " + head);
            r.Success? && AreLines(r.value.config.weston.additionalArgs)
  {
    var line := "args = " + head;
    var t := Trim(line);
    ArgumentsBegin(head);
    ArgumentKey(t);
    assert IsLine(line);
    ValueIsLine(line);
    ListOfLine(LineValue(t));
    SetsArguments(base, LineValue(t));
  }

  lemma ArgumentsBegin(head: string)
    ensures var t := Trim("args = " + head); |t| >= 6 && t[..6] == "args ="
  {
    var line := "args = " + head;
    assert TrimLeft(line) == line;
    assert line == "args =" + (" " + head);
    TrimRightKeeps("args =", " " + head);
  }

  lemma {:induction false} TrimRightKeeps(a: string, b: string)
    requires a != "" && !IsBlank(a[|a| - 1])
    ensures a <= TrimRight(a + b)
  {
    if b == "" {
      assert a + b == a;
    } else {
      assert (a + b)[..|a + b| - 1] == a + b[..|b| - 1];
      TrimRightKeeps(a, b[..|b| - 1]);
    }
  }

  /** A list with a newline in it never comes back. */
  lemma NewlinesAreLost(base: LddmConfig, items: seq<string>)
    requires !AreLines(items)
    ensures var r := Parse(Written(items), base); r.Success? ==> r.value.weston.additionalArgs != items
  {
    WrittenMeaning(base, items);
    RenderedIsLine(items);
    var head, rest := WhereItBreaks("args = ", RenderList(items));
    BrokenList(base, head, rest);
  }

  lemma WhereItBreaks(key: string, list: string) returns (head: string, rest: string)
    requires !IsLine(list)
    ensures IsLine(head) && key + list + "\n" == key + head + "\n" + rest
  {
    var n := Find(list, '\n');
    head, rest := list[..n], list[n + 1..] + "\n";
    assert list == head + "\n" + list[n + 1..];
  }

  lemma BrokenList(base: LddmConfig, head: string, rest: string)
    requires IsLine(head)
    ensures var r := ParseLines(State(base, "weston"), Lines("args = " + head + "\n" + rest));
            r.Success? ==> AreLines(r.value.weston.additionalArgs)
  {
    var line := "args = " + head;
    assert IsLine(line);
    FirstLine(line, rest);
    FirstLineSets(base, head);
    LinesAreLines(rest);
    assert ([line] + Lines(rest))[1..] == Lines(rest);
    ArgumentsStayLines(ParseLine(State(base, "weston"), line).value, Lines(rest));
  }

  /** A list written into a configuration with every item quoted is read back if and only if it is empty or
      has one item, on one line, that would not have needed the quotes. */
  lemma ArgumentsReadBack(base: LddmConfig, items: seq<string>)
    ensures var r := Parse(Written(items), base);
            (r.Success? && r.value.weston.additionalArgs == items) <==> items == [] || (|items| == 1 && Plain(items[0]))
    ensures AreLines(items) ==> Parse(Written(items), base).Success?
  {
    if AreLines(items) {
      OneArgumentLine(base, items);
      ArgumentLine(base, items);
      LineReadsBack(base, items);
    } else {
      NewlinesAreLost(base, items);
    }
  }

  /** Two plain items become one. */
  lemma TwoBecomeOne(base: LddmConfig, x: string, y: string)
    requires Plain(x) && Plain(y)
    ensures Parse(Written([x, y]), base) == Success(base.(weston := base.weston.(additionalArgs := [x + " " + y])))
  {
    OneArgumentLine(base, [x, y]);
    assert [x, y][1..] == [y];
    OntoTheNext([x, y]);
    BareIsCollected(y, "", x + " ");
    assert y + "" == y;
    FlushWithoutQuotes(x + " " + y);
    TrimOfTight(x + " " + y);
  }

  /** So ["a", "b"], written with both items quoted, is read as ["a b"]. */
  lemma QuotedPairIsNotReadBack(base: LddmConfig)
    ensures Parse(Written(["a", "b"]), base) == Success(base.(weston := base.weston.(additionalArgs := ["a b"])))
  {
    TwoBecomeOne(base, "a", "b");
    assert "a" + " " + "b" == "a b";
  }
}
