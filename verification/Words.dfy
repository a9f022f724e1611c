/**
  The string functions the command line goes through: fields, joining with single
  spaces, trimming and upper case (ASCII letters).
 */
module Words {
  type Word = string

  predicate Space(c: char) {
    '\t' <= c <= '\r' || c == ' ' || c == '\U{0085}' || c == '\U{00A0}'
  }

  predicate Wordy(w: Word) {
    w != [] && forall i :: 0 <= i < |w| ==> !Space(w[i])
  }

  predicate AllWordy(ws: seq<Word>) {
    forall i :: 0 <= i < |ws| ==> Wordy(ws[i])
  }

  function UpperChar(c: char): char {
    if 'a' <= c <= 'z' then (c as int - 32) as char else c
  }

  function Upper(s: string): (r: string)
    ensures |r| == |s| && forall i :: 0 <= i < |s| ==> r[i] == UpperChar(s[i])
  {
    seq(|s|, i requires 0 <= i < |s| => UpperChar(s[i]))
  }

  function UpperAll(ws: seq<Word>): (r: seq<Word>)
    ensures |r| == |ws| && forall i :: 0 <= i < |ws| ==> r[i] == Upper(ws[i])
  {
    seq(|ws|, i requires 0 <= i < |ws| => Upper(ws[i]))
  }

  predicate Shouted(w: Word) {
    Upper(w) == w
  }

  /** How many characters come before the first space. */
  function WordLength(s: string): (n: nat)
    ensures n <= |s| && (forall i :: 0 <= i < n ==> !Space(s[i])) && (n < |s| ==> Space(s[n]))
  {
    if s == [] || Space(s[0]) then 0 else 1 + WordLength(s[1..])
  }

  function Fields(s: string): (ws: seq<Word>)
    ensures AllWordy(ws)
    decreases |s|
  {
    if s == [] then []
    else if Space(s[0]) then Fields(s[1..])
    else [s[..WordLength(s)]] + Fields(s[WordLength(s)..])
  }

  function Join(ws: seq<Word>): string {
    if ws == [] then "" else if |ws| == 1 then ws[0] else ws[0] + " " + Join(ws[1..])
  }

  function TrimLeft(s: string): string {
    if s != [] && Space(s[0]) then TrimLeft(s[1..]) else s
  }

  function TrimRight(s: string): string {
    if s != [] && Space(s[|s| - 1]) then TrimRight(s[..|s| - 1]) else s
  }

  function Trim(s: string): string {
    TrimRight(TrimLeft(s))
  }

  // ---- Words and lines ----------------------------------------------------------------

  lemma {:induction false} WordLengthIs(w: Word, rest: string)
    requires Wordy(w) && (rest == [] || Space(rest[0]))
    ensures WordLength(w + rest) == |w|
    decreases w
  {
    if |w| == 1 {
      assert (w + rest)[1..] == rest;
    } else {
      assert (w + rest)[1..] == w[1..] + rest;
      WordLengthIs(w[1..], rest);
    }
  }

  /** The first field is the first word. */
  lemma FirstField(w: Word, rest: string)
    requires Wordy(w) && (rest == [] || Space(rest[0]))
    ensures Fields(w + rest) == [w] + Fields(rest)
  {
    WordLengthIs(w, rest);
    assert (w + rest)[..|w|] == w && (w + rest)[|w|..] == rest;
  }

  /** Splitting undoes joining. */
  lemma {:induction false} FieldsOfJoin(ws: seq<Word>)
    requires AllWordy(ws)
    ensures Fields(Join(ws)) == ws
    decreases ws
  {
    if |ws| == 1 {
      FirstField(ws[0], "");
      assert ws[0] + "" == ws[0];
    } else if ws != [] {
      var tail := " " + Join(ws[1..]);
      assert Join(ws) == ws[0] + tail;
      FirstField(ws[0], tail);
      SpaceFirst(Join(ws[1..]));
      FieldsOfJoin(ws[1..]);
    }
  }

  lemma {:induction false} UpperOfJoin(ws: seq<Word>)
    ensures Upper(Join(ws)) == Join(UpperAll(ws))
    decreases ws
  {
    if |ws| > 1 {
      UpperOfJoin(ws[1..]);
      assert UpperAll(ws)[1..] == UpperAll(ws[1..]);
      assert Upper(ws[0] + " " + Join(ws[1..])) == Upper(ws[0]) + " " + Upper(Join(ws[1..]));
    }
  }

  lemma {:induction false} JoinEnds(ws: seq<Word>)
    requires AllWordy(ws) && ws != []
    ensures Join(ws) != [] && !Space(Join(ws)[0]) && !Space(Join(ws)[|Join(ws)| - 1])
    decreases ws
  {
    if |ws| > 1 { JoinEnds(ws[1..]); }
  }

  lemma TrimOfJoin(ws: seq<Word>)
    requires AllWordy(ws)
    ensures Trim(Join(ws)) == Join(ws)
  {
    if ws != [] { JoinEnds(ws); }
  }

  lemma {:induction false} JoinSplit(ws: seq<Word>, us: seq<Word>)
    requires ws != [] && us != []
    ensures Join(ws + us) == Join(ws) + " " + Join(us)
    decreases ws
  {
    if |ws| == 1 {
      assert (ws + us)[1..] == us;
    } else {
      assert (ws + us)[1..] == ws[1..] + us;
      JoinSplit(ws[1..], us);
    }
  }

  /** One line begins another, up to a space, exactly when its words do. */
  lemma {:induction false} PrefixByWords(ws: seq<Word>, us: seq<Word>)
    requires AllWordy(ws) && AllWordy(us) && ws != []
    ensures Join(ws) + " " <= Join(us) <==> ws < us
    decreases ws
  {
    if ws < us {
      assert us == ws + us[|ws|..];
      JoinSplit(ws, us[|ws|..]);
    } else if Join(ws) + " " <= Join(us) {
      PrefixTakesFields(ws, us);
      FieldsOfJoin(us);
    }
  }

  /** The fields of a line that begins with these words and a space begin with these words. */
  lemma {:induction false} FieldsOfPrefix(ws: seq<Word>, rest: string)
    requires AllWordy(ws) && ws != []
    ensures Fields(Join(ws) + " " + rest) == ws + Fields(rest)
    decreases ws
  {
    hide Fields;
    SpaceFirst(rest);
    if |ws| == 1 {
      assert Join(ws) + " " + rest == ws[0] + (" " + rest);
      FirstField(ws[0], " " + rest);
    } else {
      var more := Join(ws[1..]) + " " + rest;
      assert Join(ws) + " " + rest == ws[0] + (" " + more);
      FirstField(ws[0], " " + more);
      SpaceFirst(more);
      FieldsOfPrefix(ws[1..], rest);
    }
  }

  lemma SpaceFirst(s: string)
    ensures Fields(" " + s) == Fields(s)
  {
    assert (" " + s)[1..] == s;
  }

  lemma PrefixTakesFields(ws: seq<Word>, us: seq<Word>)
    requires AllWordy(ws) && AllWordy(us) && ws != [] && Join(ws) + " " <= Join(us)
    ensures ws < us
  {
    hide Fields, AllWordy;
    var n := |Join(ws) + " "|;
    assert Join(us) == Join(ws) + " " + Join(us)[n..];
    FieldsOfPrefix(ws, Join(us)[n..]);
    FieldsOfJoin(us);
    JoinEnds(us);
    hide Join;
    assert Join(us)[n - 1] == ' ';
    SomeFields(Join(us)[n..]);
  }

  lemma {:induction false} SomeFields(s: string)
    requires s != [] && !Space(s[|s| - 1])
    ensures Fields(s) != []
    decreases |s|
  {
    if Space(s[0]) { SomeFields(s[1..]); }
  }

  // ---- Trimming a raw line ---------------------------------------------------------------

  lemma {:induction false} FieldsOfTrimLeft(s: string)
    ensures Fields(TrimLeft(s)) == Fields(s)
    decreases s
  {
    if s != [] && Space(s[0]) { FieldsOfTrimLeft(s[1..]); }
  }

  lemma {:induction false} FieldsOfMoreSpace(s: string, c: char)
    requires Space(c)
    ensures Fields(s + [c]) == Fields(s)
    decreases |s|
  {
    if s == [] {
      assert [] + [c] == [c] && [c][1..] == [];
      assert Fields([c]) == Fields([]);
    } else if Space(s[0]) {
      assert (s + [c])[1..] == s[1..] + [c];
      FieldsOfMoreSpace(s[1..], c);
    } else {
      var n := WordLength(s);
      var w, rest := s[..n], s[n..];
      assert s + [c] == w + (rest + [c]);
      FirstField(w, rest + [c]);
      FieldsOfMoreSpace(rest, c);
    }
  }

  lemma {:induction false} FieldsOfTrimRight(s: string)
    ensures Fields(TrimRight(s)) == Fields(s)
    decreases |s|
  {
    if s != [] && Space(s[|s| - 1]) {
      var t := s[..|s| - 1];
      assert s == t + [s[|s| - 1]];
      FieldsOfMoreSpace(t, s[|s| - 1]);
      FieldsOfTrimRight(t);
    }
  }

  lemma FieldsOfTrim(s: string)
    ensures Fields(Trim(s)) == Fields(s)
  {
    FieldsOfTrimLeft(s);
    FieldsOfTrimRight(TrimLeft(s));
  }

  lemma {:induction false} WordLengthOfUpper(s: string)
    ensures WordLength(Upper(s)) == WordLength(s)
    decreases s
  {
    if s != [] && !Space(s[0]) {
      assert Upper(s)[1..] == Upper(s[1..]);
      WordLengthOfUpper(s[1..]);
    }
  }

  lemma UpperSlices(s: string, n: nat)
    requires n <= |s|
    ensures Upper(s)[..n] == Upper(s[..n]) && Upper(s)[n..] == Upper(s[n..])
  {
  }

  lemma UpperAllCons(w: Word, ws: seq<Word>)
    ensures UpperAll([w] + ws) == [Upper(w)] + UpperAll(ws)
  {
    hide Upper;
  }

  lemma FieldsUnfold(s: string)
    requires s != []
    ensures Fields(s) == if Space(s[0]) then Fields(s[1..]) else [s[..WordLength(s)]] + Fields(s[WordLength(s)..])
  {
    hide Space, WordLength;
  }

  lemma UpperKeepsSpace(s: string)
    requires s != []
    ensures Space(Upper(s)[0]) <==> Space(s[0])
  {
  }

  lemma {:induction false} FieldsOfUpper(s: string)
    ensures Fields(Upper(s)) == UpperAll(Fields(s))
    decreases |s|
  {
    hide Upper, UpperAll, WordLength, Space;
    if s != [] {
      var n := WordLength(s);
      WordLengthOfUpper(s);
      UpperKeepsSpace(s);
      UpperSlices(s, 1);
      UpperSlices(s, n);
      FieldsUnfold(Upper(s));
      if Space(s[0]) {
        FieldsOfUpper(s[1..]);
      } else {
        FieldsOfUpper(s[n..]);
        UpperAllCons(s[..n], Fields(s[n..]));
      }
    }
  }

  // ---- Blanks -----------------------------------------------------------------------------

  /** The white space of the first 256 characters. */
  const BLANKS := {' ', '\t', '\n', '\U{000B}', '\U{000C}', '\r', '\U{0085}', '\U{00A0}'}

  predicate Blank(gap: string) {
    forall i :: 0 <= i < |gap| ==> gap[i] in BLANKS
  }

  predicate Solid(w: Word) {
    w != [] && forall i :: 0 <= i < |w| ==> w[i] !in BLANKS
  }

  lemma SpaceIs(c: char)
    ensures Space(c) <==> c in BLANKS
  {
  }

  /** Words with gaps between them, and any further gap at either end. */
  function Spread(before: string, ws: seq<Word>, gaps: seq<string>): string
    requires |gaps| == |ws|
    decreases ws
  {
    before + if ws == [] then "" else ws[0] + Spread(gaps[0], ws[1..], gaps[1..])
  }

  lemma {:induction false} BlankFirst(gap: string, s: string)
    requires Blank(gap)
    ensures Fields(gap + s) == Fields(s)
    decreases gap
  {
    if gap == [] {
      assert gap + s == s;
    } else {
      SpaceIs(gap[0]);
      assert (gap + s)[1..] == gap[1..] + s;
      BlankFirst(gap[1..], s);
    }
  }

  lemma SolidIsWordy(w: Word)
    ensures Solid(w) <==> Wordy(w)
  {
    forall i | 0 <= i < |w| ensures w[i] in BLANKS <==> Space(w[i]) { SpaceIs(w[i]); }
  }

  /** However a line is spaced, its fields are its words. */
  lemma {:induction false} FieldsOfSpread(before: string, ws: seq<Word>, gaps: seq<string>)
    requires |gaps| == |ws| && Blank(before)
    requires forall i :: 0 <= i < |ws| ==> Solid(ws[i]) && Blank(gaps[i]) && (i + 1 < |ws| ==> gaps[i] != "")
    ensures Fields(Spread(before, ws, gaps)) == ws
    decreases ws
  {
    hide Fields;
    if ws == [] {
      BlankFirst(before, "");
      NoFields();
    } else {
      var rest := Spread(gaps[0], ws[1..], gaps[1..]);
      BlankFirst(before, ws[0] + rest);
      SolidIsWordy(ws[0]);
      assert rest != [] ==> rest[0] in BLANKS by { SpreadStarts(gaps[0], ws[1..], gaps[1..]); }
      if rest != [] { SpaceIs(rest[0]); }
      FirstField(ws[0], rest);
      FieldsOfSpread(gaps[0], ws[1..], gaps[1..]);
    }
  }

  lemma NoFields()
    ensures Fields("") == []
  {
  }

  lemma SpreadStarts(before: string, ws: seq<Word>, gaps: seq<string>)
    requires |gaps| == |ws| && Blank(before) && (ws != [] ==> before != "")
    ensures var s := Spread(before, ws, gaps); s != [] ==> s[0] in BLANKS
  {
  }

  /** Trim takes the blanks off both ends, and nothing else. */
  lemma TrimIs(s: string)
    ensures exists before, after :: s == before + Trim(s) + after && Blank(before) && Blank(after)
    ensures Trim(s) != [] ==> Trim(s)[0] !in BLANKS && Trim(s)[|Trim(s)| - 1] !in BLANKS
  {
    TrimLeftIs(s);
    var before :| s == before + TrimLeft(s) && Blank(before);
    TrimRightIs(TrimLeft(s));
    var after :| TrimLeft(s) == Trim(s) + after && Blank(after);
    assert s == before + Trim(s) + after;
    if Trim(s) != [] { assert Trim(s)[0] == TrimLeft(s)[0]; }
  }

  lemma {:induction false} TrimLeftIs(s: string)
    ensures exists before :: s == before + TrimLeft(s) && Blank(before)
    ensures TrimLeft(s) != [] ==> TrimLeft(s)[0] !in BLANKS
    decreases s
  {
    if s != [] { SpaceIs(s[0]); }
    if s != [] && Space(s[0]) {
      TrimLeftIs(s[1..]);
      var before :| s[1..] == before + TrimLeft(s[1..]) && Blank(before);
      assert s == ([s[0]] + before) + TrimLeft(s) && Blank([s[0]] + before);
    } else {
      assert s == "" + TrimLeft(s) && Blank("");
    }
  }

  lemma {:induction false} TrimRightIs(s: string)
    ensures exists after :: s == TrimRight(s) + after && Blank(after)
    ensures TrimRight(s) != [] ==> TrimRight(s)[|TrimRight(s)| - 1] !in BLANKS
    decreases |s|
  {
    if s != [] { SpaceIs(s[|s| - 1]); }
    if s != [] && Space(s[|s| - 1]) {
      var init := s[..|s| - 1];
      TrimRightIs(init);
      var after :| init == TrimRight(init) + after && Blank(after);
      assert s == TrimRight(s) + (after + [s[|s| - 1]]) && Blank(after + [s[|s| - 1]]);
    } else {
      assert s == TrimRight(s) + "" && Blank("");
    }
  }
}
