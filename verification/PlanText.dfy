/**
  internal/store/plan.go: StripANSI as the scanner it is, what it keeps of a text,
  and SetPlan, whose stored text a display-time strip leaves alone. A text is a
  sequence of runes; which runes are printable is a parameter.
 */
module PlanText {
  import opened Wrappers

  const ESC := '\U{001B}'
  const BEL := '\U{0007}'
  const DEL := '\U{007F}'
  const MAX_PLAN_LENGTH := 512

  predicate Final(c: char) {
    '@' <= c <= '~'
  }

  /** A rune the scanner writes out. */
  predicate Keeps(c: char, isPrint: char -> bool) {
    c == '\n' || c == '\t' || (' ' <= c && c != DEL && isPrint(c))
  }

  predicate Clean(s: string, isPrint: char -> bool) {
    forall i :: 0 <= i < |s| ==> Keeps(s[i], isPrint)
  }

  // ---- What the scanner does, by cases on the text ---------------------------------------

  /** Runes after `ESC [` up to and with the final byte, or all of them. */
  function CsiLength(s: string): (n: nat)
    ensures n <= |s|
  {
    if s == [] then 0 else if Final(s[0]) then 1 else 1 + CsiLength(s[1..])
  }

  /** Runes after `ESC ]` up to and with BEL or `ESC \`, or all of them. */
  function OscLength(s: string): (n: nat)
    ensures n <= |s|
  {
    if s == [] then 0
    else if s[0] == BEL then 1
    else if s[0] == ESC && |s| > 1 && s[1] == '\\' then 2
    else 1 + OscLength(s[1..])
  }

  /** Runes of the escape sequence that the text begins with. */
  function EscapeLength(s: string): (n: nat)
    requires s != [] && s[0] == ESC
    ensures 0 < n <= |s|
  {
    if |s| == 1 then 1
    else if s[1] == '[' then 2 + CsiLength(s[2..])
    else if s[1] == ']' then 2 + OscLength(s[2..])
    else 2
  }

  function Strip(s: string, isPrint: char -> bool): string
    decreases |s|
  {
    if s == [] then []
    else if s[0] == ESC then Strip(s[EscapeLength(s)..], isPrint)
    else if Keeps(s[0], isPrint) then [s[0]] + Strip(s[1..], isPrint)
    else Strip(s[1..], isPrint)
  }

  // ---- The scanner ---------------------------------------------------------------------------

  method StripAnsi(s: string, isPrint: char -> bool) returns (out: string)
    ensures out == Strip(s, isPrint)
  {
    out := [];
    var i := 0;
    while i < |s|
      invariant i <= |s| && out + Strip(s[i..], isPrint) == Strip(s, isPrint)
    {
      hide EscapeLength, CsiLength, OscLength;
      var r := s[i];
      if r == ESC {
        var end := SkipEscape(s, i);
        assert s[i..][end - i..] == s[end..];
        i := end;
        continue;
      }
      assert s[i..][1..] == s[i + 1..];
      if r < ' ' && r != '\n' && r != '\t' {
        i := i + 1;
        continue;
      }
      if r == DEL || (!isPrint(r) && r != '\n' && r != '\t') {
        i := i + 1;
        continue;
      }
      assert out + ([r] + Strip(s[i + 1..], isPrint)) == (out + [r]) + Strip(s[i + 1..], isPrint);
      out := out + [r];
      i := i + 1;
    }
  }

  /** From the ESC at `start` to the index after its sequence. */
  method SkipEscape(s: string, start: nat) returns (i: nat)
    requires start < |s| && s[start] == ESC
    ensures i == start + EscapeLength(s[start..]) && start < i <= |s|
  {
    i := start + 1;
    if i >= |s| { return; }
    assert start + 2 <= |s| && s[start..][2..] == s[start + 2..];
    if s[i] == '[' {
      i := i + 1;
      var more := true;
      while more && i < |s|
        invariant start + 2 <= i <= |s|
        invariant CsiLength(s[start + 2..]) == i - (start + 2) + (if more then CsiLength(s[i..]) else 0)
        decreases |s| - i
      {
        var c := s[i];
        i := i + 1;
        more := !Final(c);
      }
    } else if s[i] == ']' {
      i := i + 1;
      var more := true;
      while more && i < |s|
        invariant start + 2 <= i <= |s|
        invariant OscLength(s[start + 2..]) == i - (start + 2) + (if more then OscLength(s[i..]) else 0)
        decreases |s| - i
      {
        var c := s[i];
        i := i + 1;
        if c == BEL {
          more := false;
        } else if c == ESC && i < |s| && s[i] == '\\' {
          i := i + 1;
          more := false;
        }
      }
    } else {
      i := i + 1;
    }
  }

  // ---- Laws ------------------------------------------------------------------------------------

  /** What comes out holds no escape, no DEL, no control rune but newline and tab, and nothing unprintable. */
  lemma {:induction false} StripIsClean(s: string, isPrint: char -> bool)
    ensures Clean(Strip(s, isPrint), isPrint)
    ensures forall i :: 0 <= i < |Strip(s, isPrint)| ==>
              Strip(s, isPrint)[i] != ESC && Strip(s, isPrint)[i] != DEL && (Strip(s, isPrint)[i] < ' ' ==> Strip(s, isPrint)[i] in {'\n', '\t'})
    decreases |s|
  {
    if s != [] {
      StripIsClean(if s[0] == ESC then s[EscapeLength(s)..] else s[1..], isPrint);
    }
  }

  /** Clean text is left alone. */
  lemma {:induction false} CleanStays(s: string, isPrint: char -> bool)
    requires Clean(s, isPrint)
    ensures Strip(s, isPrint) == s
    decreases |s|
  {
    if s != [] {
      CleanStays(s[1..], isPrint);
      assert Keeps(s[0], isPrint) && s == [s[0]] + s[1..];
    }
  }

  lemma StripTwice(s: string, isPrint: char -> bool)
    ensures Strip(Strip(s, isPrint), isPrint) == Strip(s, isPrint)
  {
    StripIsClean(s, isPrint);
    CleanStays(Strip(s, isPrint), isPrint);
  }

  /** The text changes exactly when it is not clean already. */
  lemma StripsOnlyTheUnclean(s: string, isPrint: char -> bool)
    ensures Strip(s, isPrint) == s <==> Clean(s, isPrint)
  {
    StripIsClean(s, isPrint);
    if Clean(s, isPrint) { CleanStays(s, isPrint); }
  }

  /** A newline, a tab, or a printable rune that is no control, no ESC and no DEL. */
  predicate Plain(c: char, isPrint: char -> bool) {
    c == '\U{000A}' || c == '\U{0009}' || (c >= '\U{0020}' && c != '\U{007F}' && isPrint(c))
  }

  /** A text is stored as it was written exactly when every rune of it is plain. */
  lemma PlainStays(s: string, isPrint: char -> bool)
    ensures Strip(s, isPrint) == s <==> forall i :: 0 <= i < |s| ==> Plain(s[i], isPrint)
  {
    StripsOnlyTheUnclean(s, isPrint);
    forall i | 0 <= i < |s| ensures Plain(s[i], isPrint) <==> Keeps(s[i], isPrint) { PlainMeans(s[i], isPrint); }
  }

  lemma PlainMeans(c: char, isPrint: char -> bool)
    ensures Plain(c, isPrint) <==> Keeps(c, isPrint)
  {
  }

  // ---- Text with control sequences in it -----------------------------------------------------------

  /** The text ends outside any escape sequence. */
  predicate Whole(s: string)
    decreases |s|
  {
    if s == [] then true
    else if s[0] != ESC then Whole(s[1..])
    else |s| > 1 && EscapeEnds(s) && Whole(s[EscapeLength(s)..])
  }

  predicate CsiEnds(s: string) {
    exists i :: 0 <= i < |s| && Final(s[i])
  }

  predicate OscEnds(s: string) {
    if s == [] then false
    else s[0] == BEL || (s[0] == ESC && |s| > 1 && s[1] == '\\') || OscEnds(s[1..])
  }

  predicate EscapeEnds(s: string)
    requires |s| > 1 && s[0] == ESC
  {
    if s[1] == '[' then CsiEnds(s[2..]) else if s[1] == ']' then OscEnds(s[2..]) else true
  }

  lemma {:induction false} CsiStops(s: string, t: string)
    requires CsiEnds(s)
    ensures CsiLength(s + t) == CsiLength(s)
    decreases s
  {
    assert (s + t)[1..] == s[1..] + t;
    if !Final(s[0]) {
      var i :| 0 <= i < |s| && Final(s[i]);
      assert s[1..][i - 1] == s[i];
      CsiStops(s[1..], t);
    }
  }

  lemma {:induction false} OscStops(s: string, t: string)
    requires OscEnds(s)
    ensures OscLength(s + t) == OscLength(s)
    decreases s
  {
    assert (s + t)[1..] == s[1..] + t;
    if !(s[0] == BEL || (s[0] == ESC && |s| > 1 && s[1] == '\\')) {
      OscStops(s[1..], t);
      OscNotBare(s[1..]);
    }
  }

  lemma OscNotBare(s: string)
    requires OscEnds(s)
    ensures s != []
  {
  }

  lemma EscapeStops(s: string, t: string)
    requires |s| > 1 && s[0] == ESC && EscapeEnds(s)
    ensures EscapeLength(s + t) == EscapeLength(s)
  {
    assert (s + t)[2..] == s[2..] + t;
    if s[1] == '[' { CsiStops(s[2..], t); }
    if s[1] == ']' { OscStops(s[2..], t); }
  }

  /** Past a point outside every sequence, the rest is stripped on its own. */
  lemma {:induction false} StripInParts(s: string, t: string, isPrint: char -> bool)
    requires Whole(s)
    ensures Strip(s + t, isPrint) == Strip(s, isPrint) + Strip(t, isPrint)
    decreases |s|
  {
    if s == [] {
      assert s + t == t;
    } else if s[0] == ESC {
      EscapeStops(s, t);
      var n := EscapeLength(s);
      assert (s + t)[n..] == s[n..] + t;
      StripInParts(s[n..], t, isPrint);
    } else {
      assert (s + t)[1..] == s[1..] + t;
      StripInParts(s[1..], t, isPrint);
    }
  }

  /**
    A piece of text; a control sequence (section 5.4 of ECMA-48); an operating system
    command ended by BEL or by ST (section 5.6 of ECMA-48); or any other two-rune escape.
   */
  datatype Piece = Text(text: string) | Csi(params: string, end: char) | Osc(body: string, byBel: bool) | Short(c: char)

  /** No final byte (section 5.4 of ECMA-48) stands in the parameters; the body of a command has neither terminator in it. */
  predicate WellFormed(p: Piece) {
    match p
    case Text(text) => '\U{001B}' !in text
    case Csi(params, end) => '\U{0040}' <= end <= '\U{007E}' && forall i :: 0 <= i < |params| ==> !('\U{0040}' <= params[i] <= '\U{007E}')
    case Osc(body, byBel) => Unterminated(body)
    case Short(c) => c != '[' && c != ']'
  }

  predicate Unterminated(body: string) {
    '\U{0007}' !in body && forall i :: 0 <= i < |body| - 1 ==> !(body[i] == '\U{001B}' && body[i + 1] == '\\')
  }

  function Shown(p: Piece): string {
    match p
    case Text(text) => text
    case Csi(params, end) => "\U{001B}[" + params + [end]
    case Osc(body, byBel) => "\U{001B}]" + body + (if byBel then "\U{0007}" else "\U{001B}\\")
    case Short(c) => "\U{001B}" + [c]
  }

  function ShownAll(ps: seq<Piece>): string {
    if ps == [] then [] else Shown(ps[0]) + ShownAll(ps[1..])
  }

  function Kept(text: string, isPrint: char -> bool): string {
    if text == [] then [] else (if Plain(text[0], isPrint) then [text[0]] else []) + Kept(text[1..], isPrint)
  }

  /** The texts alone, without the runes that are never kept. */
  function TextOf(ps: seq<Piece>, isPrint: char -> bool): string {
    if ps == [] then []
    else (if ps[0].Text? then Kept(ps[0].text, isPrint) else []) + TextOf(ps[1..], isPrint)
  }

  lemma {:induction false} PlainText(text: string, isPrint: char -> bool)
    requires ESC !in text
    ensures Whole(text) && Strip(text, isPrint) == Kept(text, isPrint)
    decreases |text|
  {
    if text != [] {
      assert text[0] in text && forall c :: c in text[1..] ==> c in text;
      PlainMeans(text[0], isPrint);
      PlainText(text[1..], isPrint);
    }
  }

  lemma {:induction false} CsiWhole(params: string, end: char)
    requires '\U{0040}' <= end <= '\U{007E}' && forall i :: 0 <= i < |params| ==> !('\U{0040}' <= params[i] <= '\U{007E}')
    ensures CsiLength(params + [end]) == |params| + 1
    decreases params
  {
    if params != [] {
      assert (params + [end])[1..] == params[1..] + [end];
      CsiWhole(params[1..], end);
    }
  }

  lemma {:induction false} OscWhole(body: string, byBel: bool)
    requires Unterminated(body)
    ensures var s := body + (if byBel then "\U{0007}" else "\U{001B}\\"); OscLength(s) == |s| && OscEnds(s)
    decreases body
  {
    var end := if byBel then "\U{0007}" else "\U{001B}\\";
    if body != [] {
      assert (body + end)[1..] == body[1..] + end;
      assert body[0] in body && forall c :: c in body[1..] ==> c in body;
      assert |body| > 1 ==> (body + end)[1] == body[1];
      OscWhole(body[1..], byBel);
    } else {
      assert body + end == end && end[1..] == if byBel then "" else "\\";
    }
  }

  lemma PieceIsWhole(p: Piece, isPrint: char -> bool)
    requires WellFormed(p)
    ensures Whole(Shown(p)) && Strip(Shown(p), isPrint) == if p.Text? then Kept(p.text, isPrint) else []
  {
    var s := Shown(p);
    match p
    case Text(text) => PlainText(text, isPrint);
    case Csi(params, end) =>
      CsiWhole(params, end);
      assert s[2..] == params + [end] && s[2..][|params|] == end && s[0] == ESC && s[1] == '[';
      WholeEscape(s, isPrint);
    case Osc(body, byBel) =>
      OscWhole(body, byBel);
      assert s[2..] == body + (if byBel then "\U{0007}" else "\U{001B}\\") && s[0] == ESC && s[1] == ']';
      WholeEscape(s, isPrint);
    case Short(c) => WholeEscape(s, isPrint);
  }

  lemma WholeEscape(s: string, isPrint: char -> bool)
    requires |s| > 1 && s[0] == ESC && EscapeEnds(s) && EscapeLength(s) == |s|
    ensures Whole(s) && Strip(s, isPrint) == []
  {
    assert s[|s|..] == [];
  }

  /** Text interleaved with sequences strips to the text. */
  lemma {:induction false} StripsToText(ps: seq<Piece>, isPrint: char -> bool)
    requires forall i :: 0 <= i < |ps| ==> WellFormed(ps[i])
    ensures Strip(ShownAll(ps), isPrint) == TextOf(ps, isPrint)
    decreases ps
  {
    if ps != [] {
      PieceIsWhole(ps[0], isPrint);
      StripInParts(Shown(ps[0]), ShownAll(ps[1..]), isPrint);
      StripsToText(ps[1..], isPrint);
    }
  }

  /** What follows an unfinished sequence is swallowed with it, to the end of the text. */
  lemma OpenSwallows(s: string, isPrint: char -> bool)
    requires s != [] && s[0] == '\U{001B}'
    requires || |s| == 1
             || (s[1] == '[' && forall i :: 2 <= i < |s| ==> !('\U{0040}' <= s[i] <= '\U{007E}'))
             || (s[1] == ']' && Unterminated(s[2..]))
    ensures Strip(s, isPrint) == []
  {
    if |s| > 1 && s[1] == '[' {
      CsiOpen(s[2..]);
    } else if |s| > 1 {
      OscOpen(s[2..]);
    }
    assert s[|s|..] == [];
  }

  lemma {:induction false} CsiOpen(s: string)
    requires forall i :: 0 <= i < |s| ==> !('\U{0040}' <= s[i] <= '\U{007E}')
    ensures CsiLength(s) == |s|
    decreases s
  {
    if s != [] { CsiOpen(s[1..]); }
  }

  lemma {:induction false} OscOpen(s: string)
    requires Unterminated(s)
    ensures OscLength(s) == |s|
    decreases s
  {
    if s != [] {
      assert s[0] in s && forall c :: c in s[1..] ==> c in s;
      OscOpen(s[1..]);
    }
  }

  // ---- Plans ------------------------------------------------------------------------------------------

  function TrimLeft(s: string, isSpace: char -> bool): string {
    if s != [] && isSpace(s[0]) then TrimLeft(s[1..], isSpace) else s
  }

  function TrimRight(s: string, isSpace: char -> bool): string {
    if s != [] && isSpace(s[|s| - 1]) then TrimRight(s[..|s| - 1], isSpace) else s
  }

  function TrimSpace(s: string, isSpace: char -> bool): string {
    TrimRight(TrimLeft(s, isSpace), isSpace)
  }

  lemma {:induction false} TrimLeftClean(s: string, isSpace: char -> bool, isPrint: char -> bool)
    requires Clean(s, isPrint)
    ensures Clean(TrimLeft(s, isSpace), isPrint) && |TrimLeft(s, isSpace)| <= |s|
    decreases s
  {
    if s != [] && isSpace(s[0]) { TrimLeftClean(s[1..], isSpace, isPrint); }
  }

  lemma {:induction false} TrimRightClean(s: string, isSpace: char -> bool, isPrint: char -> bool)
    requires Clean(s, isPrint)
    ensures Clean(TrimRight(s, isSpace), isPrint) && |TrimRight(s, isSpace)| <= |s|
    decreases |s|
  {
    if s != [] && isSpace(s[|s| - 1]) { TrimRightClean(s[..|s| - 1], isSpace, isPrint); }
  }

  /** Trimming takes white space off both ends, and nothing else. */
  lemma TrimIs(s: string, isSpace: char -> bool)
    ensures var r := TrimSpace(s, isSpace);
            && (exists before, after :: s == before + r + after && AllSpace(before, isSpace) && AllSpace(after, isSpace))
            && (r != [] ==> !isSpace(r[0]) && !isSpace(r[|r| - 1]))
  {
    TrimLeftIs(s, isSpace);
    var left := TrimLeft(s, isSpace);
    var before :| s == before + left && AllSpace(before, isSpace);
    TrimRightIs(left, isSpace);
    var after :| left == TrimRight(left, isSpace) + after && AllSpace(after, isSpace);
    assert s == before + TrimSpace(s, isSpace) + after;
    if TrimSpace(s, isSpace) != [] { assert TrimSpace(s, isSpace)[0] == left[0]; }
  }

  predicate AllSpace(s: string, isSpace: char -> bool) {
    forall i :: 0 <= i < |s| ==> isSpace(s[i])
  }

  lemma {:induction false} TrimLeftIs(s: string, isSpace: char -> bool)
    ensures exists before :: s == before + TrimLeft(s, isSpace) && AllSpace(before, isSpace)
    ensures TrimLeft(s, isSpace) != [] ==> !isSpace(TrimLeft(s, isSpace)[0])
    decreases s
  {
    if s != [] && isSpace(s[0]) {
      TrimLeftIs(s[1..], isSpace);
      var before :| s[1..] == before + TrimLeft(s[1..], isSpace) && AllSpace(before, isSpace);
      assert s == ([s[0]] + before) + TrimLeft(s, isSpace) && AllSpace([s[0]] + before, isSpace);
    } else {
      assert s == "" + TrimLeft(s, isSpace) && AllSpace("", isSpace);
    }
  }

  lemma {:induction false} TrimRightIs(s: string, isSpace: char -> bool)
    ensures exists after :: s == TrimRight(s, isSpace) + after && AllSpace(after, isSpace)
    ensures TrimRight(s, isSpace) != [] ==> !isSpace(TrimRight(s, isSpace)[|TrimRight(s, isSpace)| - 1])
    decreases |s|
  {
    if s != [] && isSpace(s[|s| - 1]) {
      var init := s[..|s| - 1];
      TrimRightIs(init, isSpace);
      var after :| init == TrimRight(init, isSpace) + after && AllSpace(after, isSpace);
      assert s == TrimRight(s, isSpace) + (after + [s[|s| - 1]]) && AllSpace(after + [s[|s| - 1]], isSpace);
    } else {
      assert s == TrimRight(s, isSpace) + "" && AllSpace("", isSpace);
    }
  }

  type Plans = map<string, Option<string>>

  datatype PlanError = ErrPlanTooLong

  /** SetPlan: too long a text changes nothing; otherwise the row, if there is one, is written. */
  method SetPlan(plans: Plans, username: string, text: string, isPrint: char -> bool, isSpace: char -> bool)
    returns (plans': Plans, err: Option<PlanError>)
    ensures var clean := TrimSpace(Strip(text, isPrint), isSpace);
            && (err == Some(ErrPlanTooLong) <==> |clean| > 512)
            && plans' == if err == None && username in plans then plans[username := Some(clean)] else plans
    ensures forall u :: u in plans' && (u !in plans || plans'[u] != plans[u]) ==>
              u == username && plans'[u].Some? && |plans'[u].value| <= 512 && Strip(plans'[u].value, isPrint) == plans'[u].value
  {
    var stripped := StripAnsi(text, isPrint);
    var clean := TrimSpace(stripped, isSpace);
    StripIsClean(text, isPrint);
    TrimLeftClean(stripped, isSpace, isPrint);
    TrimRightClean(TrimLeft(stripped, isSpace), isSpace, isPrint);
    CleanStays(clean, isPrint);
    if |clean| > MAX_PLAN_LENGTH { return plans, Some(ErrPlanTooLong); }
    return if username in plans then plans[username := Some(clean)] else plans, None;
  }
}
