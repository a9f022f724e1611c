/**
  internal/lobby/commands.go:476-506: the resolved line goes to the dispatch tables,
  which match it as a string. What they select is what the resolver's words say.
 */
module Dispatch {
  import opened Wrappers
  import opened Words
  import opened Abbreviation
  import opened AbbrevTrie

  datatype Outcome =
    | Asks(typed: Word, words: seq<Word>, choices: set<Word>)
    | Unknown
    | Runs(command: seq<Word>)
    | RunsWithArg(command: seq<Word>, arg: string)

  /** The line that resolveAbbrev returns: rewritten, or untouched when nothing matched. */
  function LineOf(line: string, words: seq<Word>, rest: seq<Word>): string {
    if words == [] then line else Join(words + rest)
  }

  /** The first argument-taking command, in table order, that begins the line. */
  function FirstArg(args: seq<seq<Word>>, upper: string): (a: Option<seq<Word>>)
    ensures a.Some? ==> a.value in args && Join(a.value) + " " <= upper
    ensures a == None ==> forall b :: b in args ==> !(Join(b) + " " <= upper)
  {
    if args == [] then None
    else if Join(args[0]) + " " <= upper then Some(args[0])
    else FirstArg(args[1..], upper)
  }

  predicate IsKey(keys: set<seq<Word>>, s: string) {
    exists c :: c in keys && Join(c) == s
  }

  lemma {:induction false} TrimShortens(s: string)
    ensures |TrimLeft(s)| <= |s| && |TrimRight(s)| <= |s|
    decreases |s|
  {
    if s != [] {
      TrimShortens(s[1..]);
      TrimShortens(s[..|s| - 1]);
    }
  }

  lemma ArgFits(line: string, a: seq<Word>)
    requires Join(a) + " " <= Upper(Trim(line))
    ensures |Join(a) + " "| <= |line|
  {
    TrimShortens(line);
    TrimShortens(TrimLeft(line));
  }

  ghost function RunTables(t: Tables, admin: bool, line: string): Outcome {
    var upper := Upper(Trim(line));
    match FirstArg(t.args, upper)
    case Some(a) =>
      if !Sees(t, admin, a) then Unknown
      else
        ArgFits(line, a);
        RunsWithArg(a, Trim(line[|Join(a) + " "|..]))
    case None =>
      if !admin && IsKey(t.adminKeys, upper) then Unknown
      else if IsKey(t.commands, upper) then Runs(Fields(upper))
      else Unknown
  }

  ghost function DispatchOf(t: Tables, admin: bool, line: string): Outcome {
    match Resolve(t, admin, Fields(line))
    case Ambiguous(words, typed, choices) => Asks(typed, words, choices)
    case Resolved(words, rest) => RunTables(t, admin, LineOf(line, words, rest))
  }

  // ---- What the strings say is what the words say ---------------------------------------------

  lemma {:induction false} ScanStops(t: Tables, admin: bool, done: seq<Word>, tokens: seq<Word>)
    ensures var r := Scan(t, admin, done, tokens);
            r.Resolved? && r.rest != [] ==>
              TakesArg(t, r.words) || MatchWord(NextWords(t, admin, r.words), r.rest[0]) == NoMatch
    decreases tokens
  {
    if tokens != [] {
      var m := MatchWord(NextWords(t, admin, done), tokens[0]);
      if m.Unique? && !TakesArg(t, done + [m.word]) { ScanStops(t, admin, done + [m.word], tokens[1..]); }
    }
  }

  /** No command the user may see goes on beyond where a resolution stopped for want of a match. */
  lemma NothingBeyond(t: Tables, admin: bool, tokens: seq<Word>, c: seq<Word>)
    requires Resolve(t, admin, tokens).Resolved?
    requires var r := Resolve(t, admin, tokens);
             c in AllCommands(t) && Sees(t, admin, c) && c <= r.words + UpperAll(r.rest) && |c| > |r.words|
    ensures TakesArg(t, Resolve(t, admin, tokens).words)
  {
    var r := Resolve(t, admin, tokens);
    ScanStops(t, admin, [], tokens);
    assert r.words < c && c[|r.words|] == Upper(r.rest[0]);
    NextOf(t, admin, r.words, c);
  }

  /** The fields of the line handed to the tables, in upper case, are the words resolved and the rest. */
  lemma UpperFields(t: Tables, admin: bool, line: string)
    requires Canonical(t) && Resolve(t, admin, Fields(line)).Resolved?
    ensures var r := Resolve(t, admin, Fields(line));
            && AllWordy(r.words) && AllWordy(r.rest) && UpperAll(r.words) == r.words
            && Fields(LineOf(line, r.words, r.rest)) == r.words + r.rest
            && Fields(Upper(Trim(LineOf(line, r.words, r.rest)))) == r.words + UpperAll(r.rest)
  {
    var r := Resolve(t, admin, Fields(line));
    var line' := LineOf(line, r.words, r.rest);
    ScanIsOnPath(t, admin, [], Fields(line));
    ScanCompletes(t, admin, [], Fields(line));
    PathShouted(t, admin, r.words);
    if r.words != [] { FieldsOfJoin(r.words + r.rest); }
    FieldsOfTrim(line');
    FieldsOfUpper(Trim(line'));
    assert UpperAll(r.words + r.rest) == r.words + UpperAll(r.rest);
  }

  lemma PathShouted(t: Tables, admin: bool, p: seq<Word>)
    requires Canonical(t) && OnPath(t, admin, p)
    ensures AllWordy(p) && UpperAll(p) == p
  {
    if p != [] {
      var c :| c in AllCommands(t) && p <= c && Sees(t, admin, c);
      assert forall i :: 0 <= i < |p| ==> p[i] == c[i] && Shouted(c[i]);
    }
  }

  /** A table entry that begins or equals the line begins or equals its words. */
  lemma EntryByWords(c: seq<Word>, upper: string)
    requires c != [] && AllWordy(c)
    ensures Join(c) + " " <= upper ==> c <= Fields(upper)
    ensures Join(c) == upper ==> c == Fields(upper)
  {
    if Join(c) + " " <= upper {
      var n := |Join(c) + " "|;
      assert upper == Join(c) + " " + upper[n..];
      FieldsOfPrefix(c, upper[n..]);
    }
    if Join(c) == upper { FieldsOfJoin(c); }
  }

  /** A longer argument-taking command comes after those that begin it. */
  ghost predicate ArgsOrdered(t: Tables) {
    forall i, j :: 0 <= i < |t.args| && 0 <= j < |t.args| && t.args[j] < t.args[i] ==> j < i
  }

  /** Where no argument-taking command begins another, the order does not matter. */
  lemma ApartIsOrdered(t: Tables)
    requires forall a, b :: a in t.args && b in t.args ==> !(a < b)
    ensures ArgsOrdered(t)
  {
    forall i, j | 0 <= i < |t.args| && 0 <= j < |t.args| ensures !(t.args[j] < t.args[i]) {
      assert t.args[i] in t.args && t.args[j] in t.args;
    }
  }

  lemma PrefixOrEqual(w: seq<Word>, a: seq<Word>)
    requires w <= a && !(w < a)
    ensures w == a
  {
    assert |w| == |a| && w == a[..|w|] && a[..|a|] == a;
  }

  lemma {:induction false} FirstIs(args: seq<seq<Word>>, upper: string, w: seq<Word>)
    requires w in args && Join(w) + " " <= upper
    requires forall a :: a in args && Join(a) + " " <= upper ==> w <= a
    requires forall i, j :: 0 <= i < |args| && 0 <= j < |args| && args[j] < args[i] ==> j < i
    ensures FirstArg(args, upper) == Some(w)
    decreases args
  {
    var j :| 0 <= j < |args| && args[j] == w;
    assert !(args[j] < args[0]);
    if Join(args[0]) + " " <= upper {
      PrefixOrEqual(w, args[0]);
    } else {
      assert args[0] != w;
      FirstIs(args[1..], upper, w);
    }
  }

  /** The resolution stopped at an argument-taking command with words left. */
  lemma SelectsArg(t: Tables, admin: bool, line: string)
    requires Canonical(t) && ArgsOrdered(t) && Resolve(t, admin, Fields(line)).Resolved?
    requires var r := Resolve(t, admin, Fields(line)); r.words != [] && TakesArg(t, r.words) && r.rest != []
    ensures var r := Resolve(t, admin, Fields(line));
            DispatchOf(t, admin, line) == if Sees(t, admin, r.words) then RunsWithArg(r.words, Join(r.rest)) else Unknown
  {
    hide Scan, Fields, Trim;
    var r := Resolve(t, admin, Fields(line));
    var line' := Join(r.words + r.rest);
    var upper := Upper(Trim(line'));
    UpperFields(t, admin, line);
    TrimOfJoin(r.words + r.rest);
    UpperOfJoin(r.words + r.rest);
    assert UpperAll(r.words + r.rest) == r.words + UpperAll(r.rest);
    JoinSplit(r.words, UpperAll(r.rest));
    JoinSplit(r.words, r.rest);
    assert Join(r.words) + " " <= upper;
    ScanIsOnPath(t, admin, [], Fields(line));
    forall a | a in t.args && Join(a) + " " <= upper ensures r.words <= a {
      assert a in AllCommands(t);
      EntryByWords(a, upper);
      ShorterArg(t, admin, r.words, a, UpperAll(r.rest));
    }
    FirstIs(t.args, upper, r.words);
    assert line'[|Join(r.words) + " "|..] == Join(r.rest);
    TrimOfJoin(r.rest);
  }

  lemma ShorterArg(t: Tables, admin: bool, words: seq<Word>, a: seq<Word>, more: seq<Word>)
    requires OnPath(t, admin, words) && a in t.args && a != [] && a <= words + more
    ensures words <= a
  {
    if |a| < |words| {
      assert a == words[..|a|];
      assert TakesArg(t, words[..|a|]);
    }
  }

  /** A line resolved to the end has no argument-taking command before it. */
  lemma NoArgBefore(t: Tables, admin: bool, line: string, a: seq<Word>)
    requires Canonical(t) && Resolve(t, admin, Fields(line)).Resolved? && a in t.args
    ensures var r := Resolve(t, admin, Fields(line));
            r.rest == [] && r.words != [] ==> !(Join(a) + " " <= Upper(Trim(LineOf(line, r.words, r.rest))))
  {
    hide Scan, Fields, Trim;
    var r := Resolve(t, admin, Fields(line));
    UpperFields(t, admin, line);
    ScanIsOnPath(t, admin, [], Fields(line));
    assert a in AllCommands(t) && r.words + [] == r.words;
    if r.rest == [] && r.words != [] {
      TrimOfJoin(r.words);
      UpperOfJoin(r.words);
      PrefixByWords(a, r.words);
      if a < r.words { ShorterArg(t, admin, r.words, a, []); }
    }
  }

  /** Otherwise, an argument-taking command that the string match would pick is one this user may not see. */
  lemma ArgHidden(t: Tables, admin: bool, line: string, a: seq<Word>)
    requires Canonical(t) && Resolve(t, admin, Fields(line)).Resolved?
    requires var r := Resolve(t, admin, Fields(line)); !(TakesArg(t, r.words) && r.rest != [])
    requires var r := Resolve(t, admin, Fields(line));
             a in t.args && Join(a) + " " <= Upper(Trim(LineOf(line, r.words, r.rest)))
    ensures !Sees(t, admin, a)
  {
    hide Scan, Fields, Trim;
    var r := Resolve(t, admin, Fields(line));
    assert a in AllCommands(t);
    UpperFields(t, admin, line);
    EntryByWords(a, Upper(Trim(LineOf(line, r.words, r.rest))));
    ScanIsOnPath(t, admin, [], Fields(line));
    ShorterArg(t, admin, r.words, a, UpperAll(r.rest));
    NoArgBefore(t, admin, line, a);
    assert |a| == |r.words| ==> a == r.words;
    if Sees(t, admin, a) { NothingBeyond(t, admin, Fields(line), a); }
  }

  /** And a command that equals the line is the one resolved, or one this user may not see. */
  lemma KeyHidden(t: Tables, admin: bool, line: string, c: seq<Word>)
    requires Canonical(t) && Resolve(t, admin, Fields(line)).Resolved?
    requires var r := Resolve(t, admin, Fields(line)); !(TakesArg(t, r.words) && r.rest != [])
    requires var r := Resolve(t, admin, Fields(line));
             c in AllCommands(t) && Join(c) == Upper(Trim(LineOf(line, r.words, r.rest)))
    ensures var r := Resolve(t, admin, Fields(line)); if r.rest == [] then c == r.words else !Sees(t, admin, c)
  {
    hide Scan, Fields, Trim;
    var r := Resolve(t, admin, Fields(line));
    UpperFields(t, admin, line);
    EntryByWords(c, Upper(Trim(LineOf(line, r.words, r.rest))));
    assert c == r.words + UpperAll(r.rest);
    if r.rest == [] {
      assert UpperAll(r.rest) == [] && r.words + [] == r.words;
    } else if Sees(t, admin, c) {
      NothingBeyond(t, admin, Fields(line), c);
    }
  }

  /** A line resolved to the end is the resolved words joined. */
  lemma WordsAreKey(t: Tables, admin: bool, line: string)
    requires Canonical(t) && Resolve(t, admin, Fields(line)).Resolved?
    ensures var r := Resolve(t, admin, Fields(line));
            r.rest == [] && r.words != [] ==> Upper(Trim(LineOf(line, r.words, r.rest))) == Join(r.words)
  {
    hide Scan, Fields, Trim;
    var r := Resolve(t, admin, Fields(line));
    UpperFields(t, admin, line);
    assert r.words + [] == r.words;
    TrimOfJoin(r.words);
    UpperOfJoin(r.words);
  }

  lemma AdminKeyIs(t: Tables, admin: bool, line: string, c: seq<Word>)
    requires Canonical(t) && Resolve(t, admin, Fields(line)).Resolved? && c in t.adminKeys
    requires var r := Resolve(t, admin, Fields(line)); Join(c) == Upper(Trim(LineOf(line, r.words, r.rest)))
    ensures var r := Resolve(t, admin, Fields(line)); r.rest == [] ==> c == r.words
  {
    hide Scan, Fields, Trim;
    var r := Resolve(t, admin, Fields(line));
    UpperFields(t, admin, line);
    EntryByWords(c, Upper(Trim(LineOf(line, r.words, r.rest))));
    assert r.rest == [] ==> r.words + UpperAll(r.rest) == r.words;
  }

  /** Every other resolution: the exact command if that is all there is, and nothing else. */
  lemma SelectsExact(t: Tables, admin: bool, line: string)
    requires Canonical(t) && Resolve(t, admin, Fields(line)).Resolved?
    requires var r := Resolve(t, admin, Fields(line)); !(TakesArg(t, r.words) && r.rest != [])
    ensures var r := Resolve(t, admin, Fields(line));
            DispatchOf(t, admin, line) ==
              if r.rest == [] && r.words in t.commands && Sees(t, admin, r.words) then Runs(r.words) else Unknown
  {
    hide Scan, Fields, Trim;
    var r := Resolve(t, admin, Fields(line));
    var upper := Upper(Trim(LineOf(line, r.words, r.rest)));
    var a := FirstArg(t.args, upper);
    assert r.words in t.commands ==> r.words in AllCommands(t);
    if a.Some? {
      ArgHidden(t, admin, line, a.value);
      NoArgBefore(t, admin, line, a.value);
    } else {
      WordsAreKey(t, admin, line);
      if c :| c in t.commands && Join(c) == upper {
        assert c in AllCommands(t);
        KeyHidden(t, admin, line, c);
        EntryByWords(c, upper);
      }
      if c :| c in t.adminKeys && Join(c) == upper { AdminKeyIs(t, admin, line, c); }
    }
  }

  // ---- The dispatcher ------------------------------------------------------------------------------

  /** The whole of dispatch: resolve, try the argument-taking commands in order, then the exact ones. */
  method DispatchLine(t: Tables, root: Node, admin: bool, line: string) returns (o: Outcome)
    requires At(root, t, [])
    ensures o == DispatchOf(t, admin, line)
  {
    var tokens := Fields(line);
    var r, names := ResolveAbbrev(root, admin, tokens, t);
    if r.Ambiguous? { return Asks(r.typed, r.words, r.choices); }
    var resolved := LineOf(line, r.words, r.rest);
    var upper := Upper(Trim(resolved));
    var i := 0;
    while i < |t.args|
      invariant i <= |t.args| && FirstArg(t.args, upper) == FirstArg(t.args[i..], upper)
    {
      var pfx := Join(t.args[i]) + " ";
      if pfx <= upper {
        assert FirstArg(t.args, upper) == Some(t.args[i]);
        if !admin && t.args[i] in t.adminKeys { return Unknown; }
        ArgFits(resolved, t.args[i]);
        return RunsWithArg(t.args[i], Trim(resolved[|pfx|..]));
      }
      i := i + 1;
    }
    if !admin && IsKey(t.adminKeys, upper) { return Unknown; }
    if !IsKey(t.commands, upper) { return Unknown; }
    return Runs(Fields(upper));
  }

  // ---- Lines -------------------------------------------------------------------------------------

  /** Resolving a line twice is resolving it once. */
  lemma LineIdempotent(t: Tables, admin: bool, line: string)
    requires Canonical(t) && Resolve(t, admin, Fields(line)).Resolved?
    ensures var r := Resolve(t, admin, Fields(line));
            Resolve(t, admin, Fields(LineOf(line, r.words, r.rest))) == r
  {
    hide Scan, Fields;
    UpperFields(t, admin, line);
    Idempotent(t, admin, [], Fields(line));
    var r := Resolve(t, admin, Fields(line));
    assert r.words[0..] == r.words;
  }

  /** A command typed out in full, by a user who may see it, is handed on unchanged. */
  lemma CanonicalLineStays(t: Tables, admin: bool, c: seq<Word>)
    requires Canonical(t) && c in AllCommands(t) && Sees(t, admin, c)
    ensures var r := Resolve(t, admin, Fields(Join(c)));
            r.Resolved? && LineOf(Join(c), r.words, r.rest) == Join(c)
  {
    hide Scan, Fields;
    FieldsOfJoin(c);
    assert c[0..] == c;
    CanonicalStays(t, admin, [], c);
  }

  /** Whatever the tables, a line never reaches a handler that the user may not see. */
  lemma NoBackDoor(t: Tables, line: string)
    requires Canonical(t)
    ensures match DispatchOf(t, false, line)
            case Runs(c) => c in t.commands && c !in t.adminKeys
            case RunsWithArg(c, arg) => c in t.args && c !in t.adminKeys
            case Asks(typed, words, choices) => forall w :: w in choices ==>
              exists c :: c in AllCommands(t) && c !in t.adminKeys && words + [w] <= c
            case Unknown => true
  {
    hide Scan, Fields, Trim;
    var r := Resolve(t, false, Fields(line));
    if r.Ambiguous? {
      ScanChoices(t, false, [], Fields(line));
    } else {
      var upper := Upper(Trim(LineOf(line, r.words, r.rest)));
      if c :| c in t.commands && Join(c) == upper {
        assert c in AllCommands(t);
        EntryByWords(c, upper);
      }
    }
  }

  lemma {:induction false} ScanChoices(t: Tables, admin: bool, done: seq<Word>, tokens: seq<Word>)
    ensures var r := Scan(t, admin, done, tokens);
            r.Ambiguous? ==> forall w :: w in r.choices ==>
              exists c :: c in AllCommands(t) && Sees(t, admin, c) && r.words + [w] <= c
    decreases tokens
  {
    if tokens != [] {
      var m := MatchWord(NextWords(t, admin, done), tokens[0]);
      match m
      case NoMatch =>
      case Several(choices) => CompletionsLead(t, admin, done, Upper(tokens[0]));
      case Unique(w) => if !TakesArg(t, done + [w]) { ScanChoices(t, admin, done + [w], tokens[1..]); }
    }
  }

  lemma CompletionsLead(t: Tables, admin: bool, done: seq<Word>, up: Word)
    ensures forall w :: w in Completions(NextWords(t, admin, done), up) ==>
              exists c :: c in AllCommands(t) && Sees(t, admin, c) && done + [w] <= c
  {
    forall w | w in NextWords(t, admin, done) ensures exists c :: c in AllCommands(t) && Sees(t, admin, c) && done + [w] <= c {
      var c :| c in AllCommands(t) && done < c && Sees(t, admin, c) && c[|done|] == w;
      assert done + [w] <= c;
    }
  }
}
