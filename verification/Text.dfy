/** The string operations the stores and the memories compose their texts with. */
module Text {
  import opened Types
  import opened Sequences

  /** separator.join(parts) */
  function Join(parts: seq<string>, separator: string): string {
    if parts == [] then ""
    else if |parts| == 1 then parts[0]
    else parts[0] + separator + Join(parts[1..], separator)
  }

  /** Python's white space. */
  predicate IsSpace(c: char) {
    || '\t' <= c <= '\r' || '\U{1C}' <= c <= ' ' || c == '\U{85}' || c == '\U{A0}' || c == '\U{1680}'
    || '\U{2000}' <= c <= '\U{200A}' || c == '\U{2028}' || c == '\U{2029}' || c == '\U{202F}' || c == '\U{205F}'
    || c == '\U{3000}'
  }

  function StripLeft(s: string): string {
    if s != "" && IsSpace(s[0]) then StripLeft(s[1..]) else s
  }

  function StripRight(s: string): string {
    if s != "" && IsSpace(s[|s| - 1]) then StripRight(s[..|s| - 1]) else s
  }

  function Strip(s: string): string {
    StripRight(StripLeft(s))
  }

  /** The order of strings by code points, as Python sorts them and as Redis orders members of one score. */
  predicate Leq(a: string, b: string) {
    a == "" || (b != "" && (if a[0] == b[0] then Leq(a[1..], b[1..]) else a[0] < b[0]))
  }

  function SpokenLines(turns: seq<Turn>): seq<string> {
    if turns == [] then []
    else (if turns[0].text != "" then [turns[0].role.Name() + ": " + turns[0].text] else []) + SpokenLines(turns[1..])
  }

  /** The rolling summary and the turns that have text, one a line. */
  function Lines(summary: string, turns: seq<Turn>): string {
    Join((if summary != "" then [summary] else []) + SpokenLines(turns), "\n")
  }

  /** A conversation's transcript: the lines of its rolling summary and its remaining buffer, stripped. */
  function Compose(summary: string, turns: seq<Turn>): string {
    Strip(Lines(summary, turns))
  }

  lemma {:induction false} SpokenAppend(a: seq<Turn>, b: seq<Turn>)
    ensures SpokenLines(a + b) == SpokenLines(a) + SpokenLines(b)
  {
    if a == [] {
      assert a + b == b;
    } else {
      assert (a + b)[1..] == a[1..] + b;
      SpokenAppend(a[1..], b);
      AppendAssociative(SpokenLines([a[0]]), SpokenLines(a[1..]), SpokenLines(b));
      assert SpokenLines([a[0]]) == if a[0].text != "" then [a[0].role.Name() + ": " + a[0].text] else [] by {
        assert [a[0]][1..] == [];
      }
    }
  }

  // ---- A transcript grows with every turn that has text ----

  /** The characters that are not white space. */
  function Solid(s: string): nat {
    if s == "" then 0 else (if IsSpace(s[0]) then 0 else 1) + Solid(s[1..])
  }

  function AllSolid(parts: seq<string>): nat {
    if parts == [] then 0 else Solid(parts[0]) + AllSolid(parts[1..])
  }

  lemma {:induction false} SolidAppend(a: string, b: string)
    ensures Solid(a + b) == Solid(a) + Solid(b)
  {
    if a == "" {
      assert a + b == b;
    } else {
      assert (a + b)[1..] == a[1..] + b;
      SolidAppend(a[1..], b);
    }
  }

  lemma {:induction false} SolidLeft(s: string)
    ensures Solid(StripLeft(s)) == Solid(s)
  {
    if s != "" && IsSpace(s[0]) {
      SolidLeft(s[1..]);
    }
  }

  lemma {:induction false} SolidRight(s: string)
    ensures Solid(StripRight(s)) == Solid(s)
  {
    if s != "" && IsSpace(s[|s| - 1]) {
      SolidRight(s[..|s| - 1]);
      SplitLast(s);
      SolidAppend(s[..|s| - 1], [s[|s| - 1]]);
      assert [s[|s| - 1]][1..] == "";
    }
  }

  lemma {:induction false} SolidJoin(parts: seq<string>)
    ensures Solid(Join(parts, "\n")) == AllSolid(parts)
  {
    if |parts| == 1 {
      assert parts[1..] == [];
    } else if |parts| > 1 {
      var rest := Join(parts[1..], "\n");
      SolidJoin(parts[1..]);
      SolidAppend(parts[0] + "\n", rest);
      SolidAppend(parts[0], "\n");
      assert "\n"[1..] == "";
    }
  }

  lemma {:induction false} AllSolidAppend(a: seq<string>, b: seq<string>)
    ensures AllSolid(a + b) == AllSolid(a) + AllSolid(b)
  {
    if a == [] {
      assert a + b == b;
    } else {
      assert (a + b)[1..] == a[1..] + b;
      AllSolidAppend(a[1..], b);
    }
  }

  predicate AnySpoken(turns: seq<Turn>) {
    exists i :: 0 <= i < |turns| && turns[i].text != ""
  }

  lemma {:induction false} SpokenSolid(turns: seq<Turn>)
    ensures AnySpoken(turns) ==> AllSolid(SpokenLines(turns)) > 0
    ensures !AnySpoken(turns) ==> SpokenLines(turns) == []
  {
    if turns != [] {
      SpokenSolid(turns[1..]);
      assert forall i :: 1 <= i < |turns| ==> turns[i] == turns[1..][i - 1];
      if turns[0].text != "" {
        RoleSolid(turns[0]);
        AllSolidAppend([turns[0].role.Name() + ": " + turns[0].text], SpokenLines(turns[1..]));
      } else {
        assert SpokenLines(turns) == SpokenLines(turns[1..]);
        assert AnySpoken(turns) ==> AnySpoken(turns[1..]);
      }
    }
  }

  lemma RoleSolid(turn: Turn)
    ensures AllSolid([turn.role.Name() + ": " + turn.text]) > 0
  {
    var line: string := turn.role.Name() + ": " + turn.text;
    assert !IsSpace(line[0]);
    var lines: seq<string> := [line];
    assert lines[1..] == [];
  }

  /** Appending turns leaves the transcript as it was if and only if none of them has text. */
  lemma TranscriptGrowsIff(summary: string, turns: seq<Turn>, late: seq<Turn>)
    ensures Compose(summary, turns + late) == Compose(summary, turns) <==> !AnySpoken(late)
    ensures AnySpoken(late) ==> Compose(summary, turns + late) != ""
  {
    hide Join, StripLeft, StripRight, SpokenLines, AnySpoken;
    var opening := if summary != "" then [summary] else [];
    var before, added := opening + SpokenLines(turns), SpokenLines(late);
    SpokenAppend(turns, late);
    SpokenSolid(late);
    AppendAssociative(opening, SpokenLines(turns), added);
    if AnySpoken(late) {
      ComposedSolid(before);
      ComposedSolid(before + added);
      AllSolidAppend(before, added);
    } else {
      assert before + added == before;
    }
  }

  // ---- What stripping and joining keep ----

  /** The characters that are not white space, in order. */
  function Solids(s: string): string {
    if s == "" then "" else (if IsSpace(s[0]) then "" else [s[0]]) + Solids(s[1..])
  }

  function AllSolids(parts: seq<string>): string {
    if parts == [] then "" else Solids(parts[0]) + AllSolids(parts[1..])
  }

  predicate Blank(s: string) { forall i :: 0 <= i < |s| ==> IsSpace(s[i]) }

  lemma {:induction false} SolidsAppend(a: string, b: string)
    ensures Solids(a + b) == Solids(a) + Solids(b)
  {
    if a == "" {
      assert a + b == b;
    } else {
      assert (a + b)[1..] == a[1..] + b;
      SolidsAppend(a[1..], b);
      AppendAssociative(if IsSpace(a[0]) then "" else [a[0]], Solids(a[1..]), Solids(b));
    }
  }

  lemma {:induction false} SolidsJoin(parts: seq<string>)
    ensures Solids(Join(parts, "\n")) == AllSolids(parts)
  {
    if |parts| == 1 {
      assert parts[1..] == [];
    } else if |parts| > 1 {
      SolidsJoin(parts[1..]);
      SolidsAppend(parts[0] + "\n", Join(parts[1..], "\n"));
      SolidsAppend(parts[0], "\n");
      assert "\n"[1..] == "";
    }
  }

  lemma {:induction false} SolidsBlankIff(s: string)
    ensures Solids(s) == "" <==> Blank(s)
  {
    if s != "" {
      SolidsBlankIff(s[1..]);
      if Blank(s[1..]) {
        assert forall i :: 1 <= i < |s| ==> s[i] == s[1..][i - 1];
      }
      if Blank(s) {
        assert IsSpace(s[0]) && forall i :: 0 <= i < |s[1..]| ==> s[1..][i] == s[i + 1];
      }
    }
  }

  lemma {:induction false} LeftIs(s: string) returns (front: string)
    ensures s == front + StripLeft(s) && Blank(front)
    ensures StripLeft(s) != "" ==> !IsSpace(StripLeft(s)[0])
  {
    front := "";
    if s != "" && IsSpace(s[0]) {
      var rest := LeftIs(s[1..]);
      front := [s[0]] + rest;
    }
  }

  lemma {:induction false} RightIs(s: string) returns (back: string)
    ensures s == StripRight(s) + back && Blank(back)
    ensures StripRight(s) != "" ==> !IsSpace(StripRight(s)[|StripRight(s)| - 1]) && StripRight(s)[0] == s[0]
  {
    back := "";
    if s != "" && IsSpace(s[|s| - 1]) {
      var rest := RightIs(s[..|s| - 1]);
      back := rest + [s[|s| - 1]];
    }
  }

  /** Neither begins nor ends with white space. */
  predicate Trimmed(s: string) {
    s == "" || (!IsSpace(s[0]) && !IsSpace(s[|s| - 1]))
  }

  /** Stripping takes white space from both ends, all of it, and nothing else. */
  lemma StripIs(s: string) returns (front: string, back: string)
    ensures s == front + Strip(s) + back && Blank(front) && Blank(back) && Trimmed(Strip(s))
    ensures Solids(Strip(s)) == Solids(s)
    ensures Strip(s) == "" <==> Blank(s)
  {
    hide StripLeft, StripRight, IsSpace;
    front := LeftIs(s);
    back := RightIs(StripLeft(s));
    AppendAssociative(front, Strip(s), back);
    SolidsAppend(front + Strip(s), back);
    SolidsAppend(front, Strip(s));
    SolidsBlankIff(front);
    SolidsBlankIff(back);
    SolidsBlankIff(s);
    SolidsBlankIff(Strip(s));
  }

  /** What was said in a conversation, without white space: for each turn with text who spoke, a colon and the text. */
  function SaidBy(turns: seq<Turn>): string {
    if turns == [] then ""
    else
      (if turns[0].text != "" then turns[0].role.Name() + ":" + Solids(turns[0].text) else "") + SaidBy(turns[1..])
  }

  lemma LineSays(turn: Turn)
    ensures Solids(turn.role.Name() + ": " + turn.text) == turn.role.Name() + ":" + Solids(turn.text)
  {
    NamesAreSolid(turn.role);
    SolidsAppend(turn.role.Name() + ": ", turn.text);
    SolidsAppend(turn.role.Name(), ": ");
    assert ": "[1..] == " " && " "[1..] == "";
    assert Solids(" ") == "" && Solids(": ") == ":";
  }

  lemma NamesAreSolid(role: Role)
    ensures Solids(role.Name()) == role.Name()
  {
    AllAreSolid(role.Name());
  }

  lemma {:induction false} AllAreSolid(s: string)
    requires forall i :: 0 <= i < |s| ==> !IsSpace(s[i])
    ensures Solids(s) == s
  {
    if s == "" {
    } else {
      AllAreSolid(s[1..]);
    }
  }

  lemma AllSolidsFirst(first: string, rest: seq<string>)
    ensures AllSolids([first] + rest) == Solids(first) + AllSolids(rest)
  {
    assert ([first] + rest)[1..] == rest;
  }

  lemma {:induction false} LinesSay(turns: seq<Turn>)
    ensures AllSolids(SpokenLines(turns)) == SaidBy(turns)
  {
    hide Solids;
    if turns != [] {
      LinesSay(turns[1..]);
      LineSays(turns[0]);
      var rest := SpokenLines(turns[1..]);
      if turns[0].text != "" {
        AllSolidsFirst(turns[0].role.Name() + ": " + turns[0].text, rest);
      } else {
        assert SpokenLines(turns) == rest;
        assert SaidBy(turns) == SaidBy(turns[1..]);
      }
    }
  }

  /**
   A transcript is the summary and then everything said, up to white space, and it neither begins nor ends in white
   space.
   */
  lemma TranscriptSays(summary: string, turns: seq<Turn>)
    ensures Solids(Compose(summary, turns)) == Solids(summary) + SaidBy(turns) && Trimmed(Compose(summary, turns))
  {
    hide Solids, Strip, SaidBy, SpokenLines, Join, Trimmed;
    var front, back := StripIs(Lines(summary, turns));
    var opening := if summary != "" then [summary] else [];
    SolidsJoin(opening + SpokenLines(turns));
    LinesSay(turns);
    if summary != "" {
      assert (opening + SpokenLines(turns))[1..] == SpokenLines(turns);
    } else {
      assert opening + SpokenLines(turns) == SpokenLines(turns);
      assert Solids("") == "" by { SolidsBlankIff(""); }
    }
  }

  /** Each part stands in the joined text, at its beginning or after a separator, at its end or before one. */
  lemma {:induction false} JoinHolds(parts: seq<string>, separator: string, i: nat)
      returns (front: string, back: string)
    requires i < |parts|
    ensures Join(parts, separator) == front + parts[i] + back
    ensures if i == 0 then front == "" else front == Join(parts[..i], separator) + separator
    ensures if i == |parts| - 1 then back == "" else back == separator + Join(parts[i + 1..], separator)
  {
    if |parts| == 1 {
      front, back := "", "";
    } else if i == 0 {
      front, back := "", separator + Join(parts[1..], separator);
      AppendAssociative(parts[0], separator, Join(parts[1..], separator));
    } else {
      var inner;
      inner, back := JoinHolds(parts[1..], separator, i - 1);
      front := parts[0] + separator + inner;
      assert parts[1..][i..] == parts[i + 1..];
      assert parts[1..][..i - 1] == parts[1..i] == parts[..i][1..];
      assert Join(parts[..i], separator) + separator == front;
    }
  }

  // ---- What folding turns into a summary does to a transcript ----

  lemma {:induction false} JoinAppend(a: seq<string>, b: seq<string>, separator: string)
    requires a != [] && b != []
    ensures Join(a + b, separator) == Join(a, separator) + separator + Join(b, separator)
  {
    if |a| == 1 {
      assert (a + b)[1..] == b;
    } else {
      assert (a + b)[1..] == a[1..] + b;
      JoinAppend(a[1..], b, separator);
    }
  }

  lemma {:induction false} StripLeftAppend(a: string, b: string)
    ensures StripLeft(a + b) == if StripLeft(a) != "" then StripLeft(a) + b else StripLeft(b)
  {
    if a == "" {
      assert a + b == b;
    } else if IsSpace(a[0]) {
      assert (a + b)[1..] == a[1..] + b;
      StripLeftAppend(a[1..], b);
    }
  }

  lemma {:induction false} StripRightAppend(a: string, b: string)
    requires StripRight(b) != ""
    ensures StripRight(a + b) == a + StripRight(b)
  {
    if IsSpace(b[|b| - 1]) {
      assert (a + b)[..|a + b| - 1] == a + b[..|b| - 1];
      StripRightAppend(a, b[..|b| - 1]);
    }
  }

  lemma {:induction false} SolidStays(s: string)
    requires s != "" && !IsSpace(s[0])
    ensures StripRight(s) != "" && StripLeft(s) == s
  {
    if IsSpace(s[|s| - 1]) {
      SolidStays(s[..|s| - 1]);
    }
  }

  lemma {:induction false} SpokenBegins(turns: seq<Turn>)
    requires SpokenLines(turns) != []
    ensures Join(SpokenLines(turns), "\n") != "" && !IsSpace(Join(SpokenLines(turns), "\n")[0])
  {
    if turns[0].text == "" {
      assert SpokenLines(turns) == SpokenLines(turns[1..]);
      SpokenBegins(turns[1..]);
    } else {
      var line := turns[0].role.Name() + ": " + turns[0].text;
      assert SpokenLines(turns)[0] == line && !IsSpace(line[0]);
    }
  }

  /** The part of a transcript in front of the kept turns: nothing if it is blank, else its own line. */
  function Front(text: string): string {
    if StripLeft(text) == "" then "" else StripLeft(text) + "\n"
  }

  lemma FrontThen(parts: seq<string>, kept: seq<Turn>)
    requires SpokenLines(kept) != []
    ensures Strip(Join(parts + SpokenLines(kept), "\n"))
         == Front(Join(parts, "\n")) + StripRight(Join(SpokenLines(kept), "\n"))
  {
    hide SpokenLines, StripLeft, StripRight, IsSpace;
    var front, back := Join(parts, "\n"), Join(SpokenLines(kept), "\n");
    SpokenBegins(kept);
    SolidStays(back);
    if parts == [] {
      BlankLine();
      assert parts + SpokenLines(kept) == SpokenLines(kept);
    } else {
      JoinAppend(parts, SpokenLines(kept), "\n");
      BlankLine();
      StripLeftAppend(front + "\n", back);
      StripLeftAppend(front, "\n");
      StripRightAppend(Front(front), back);
    }
  }

  lemma BlankLine()
    ensures StripLeft("\n") == "" && StripLeft("") == ""
  {
    assert "\n"[1..] == "";
  }

  lemma FrontsDiffer(a: string, b: string, back: string)
    ensures Front(a) + back == Front(b) + back <==> StripLeft(a) == StripLeft(b)
  {
    hide StripLeft;
    if Front(a) + back == Front(b) + back {
      assert Front(a) == (Front(a) + back)[..|Front(a)|] && Front(b) == (Front(b) + back)[..|Front(b)|];
      if StripLeft(a) != "" {
        assert StripLeft(a) == Front(a)[..|Front(a)| - 1];
      }
      if StripLeft(b) != "" {
        assert StripLeft(b) == Front(b)[..|Front(b)| - 1];
      }
    }
  }

  /**
   Replacing evicted turns by a new summary leaves the transcript as it was if and only if the new summary is, up to
   leading white space (or white space at both ends, when the kept turns have no text), the old summary and the lines of
   the evicted turns.
   */
  lemma FoldKeepsIff(summary: string, prior: string, evicted: seq<Turn>, kept: seq<Turn>)
    requires summary != ""
    ensures Compose(summary, kept) == Compose(prior, evicted + kept) <==>
              if SpokenLines(kept) != [] then StripLeft(summary) == StripLeft(Lines(prior, evicted))
              else Strip(summary) == Strip(Lines(prior, evicted))
  {
    hide StripLeft, StripRight, SpokenLines;
    var opening := if prior != "" then [prior] else [];
    SpokenAppend(evicted, kept);
    AppendAssociative(opening, SpokenLines(evicted), SpokenLines(kept));
    assert Join([summary], "\n") == summary;
    if SpokenLines(kept) != [] {
      FrontThen([summary], kept);
      FrontThen(opening + SpokenLines(evicted), kept);
      FrontsDiffer(summary, Lines(prior, evicted), StripRight(Join(SpokenLines(kept), "\n")));
    } else {
      assert [summary] + SpokenLines(kept) == [summary];
      assert opening + SpokenLines(evicted) + SpokenLines(kept) == opening + SpokenLines(evicted);
    }
  }

  lemma ComposedSolid(parts: seq<string>)
    ensures Solid(Strip(Join(parts, "\n"))) == AllSolid(parts)
  {
    SolidJoin(parts);
    SolidLeft(Join(parts, "\n"));
    SolidRight(StripLeft(Join(parts, "\n")));
  }

  lemma {:induction false} SolidIff(s: string)
    ensures StripLeft(s) != "" <==> Solid(s) > 0
  {
    if s != "" && IsSpace(s[0]) {
      SolidIff(s[1..]);
    }
  }

  /** A summary that is not blank shows in the transcript. */
  lemma SummaryShows(summary: string, turns: seq<Turn>)
    requires StripLeft(summary) != ""
    ensures Compose(summary, turns) != ""
  {
    hide StripLeft, StripRight, SpokenLines, Join;
    SolidIff(summary);
    assert summary != "" by { BlankLine(); }
    var parts := [summary] + SpokenLines(turns);
    ComposedSolid(parts);
    assert parts[0] == summary;
  }

  /** The default token estimator: a quarter of the characters, rounded down (tokens.py). */
  function Estimate(text: string): nat {
    |text| / 4
  }

  const DIGITS: string := "0123456789"

  /** A natural number in decimal, as an f-string renders it. */
  function Decimal(n: nat): (s: string)
    ensures s != ""
  {
    if n < 10 then [DIGITS[n]] else Decimal(n / 10) + [DIGITS[n % 10]]
  }

  lemma DigitsDiffer(a: nat, b: nat)
    requires a < 10 && b < 10
    ensures DIGITS[a] == DIGITS[b] ==> a == b
    ensures DIGITS[a] != ':'
  {
  }

  lemma {:induction false} DecimalDigits(n: nat, k: nat)
    requires k < |Decimal(n)|
    ensures Decimal(n)[k] != ':'
  {
    DigitsDiffer(n % 10, n % 10);
    if n >= 10 && k < |Decimal(n)| - 1 {
      DecimalDigits(n / 10, k);
    }
  }

  lemma {:induction false} DecimalInjective(m: nat, n: nat)
    requires Decimal(m) == Decimal(n)
    ensures m == n
    decreases m + n
  {
    var s, t := Decimal(m), Decimal(n);
    assert s[|s| - 1] == DIGITS[m % 10] && t[|t| - 1] == DIGITS[n % 10];
    DigitsDiffer(m % 10, n % 10);
    if m >= 10 && n >= 10 {
      assert s[..|s| - 1] == Decimal(m / 10) && t[..|t| - 1] == Decimal(n / 10);
      DecimalInjective(m / 10, n / 10);
    }
  }
}
