/**
  DCL-style abbreviation as a flat scan of the command tables
  (internal/lobby/abbrev.go:120-191 without the trie), and what is promised of it:
  a resolution is stable, every command a user may see resolves to itself, and
  commands a user may not see leave no trace.
 */
module Abbreviation {
  import opened Words

  /**
    The tables of internal/lobby/commands.go, each command by its words. `args` is
    in the order in which dispatch tries it.
   */
  datatype Tables = Tables(commands: set<seq<Word>>, args: seq<seq<Word>>, adminKeys: set<seq<Word>>)

  /** Every command and every admin key is at least one word, and every command is in upper case. */
  ghost predicate Canonical(t: Tables) {
    && (forall c :: c in AllCommands(t) ==> c != [] && AllWordy(c) && forall i :: 0 <= i < |c| ==> Shouted(c[i]))
    && (forall c :: c in t.adminKeys ==> c != [] && AllWordy(c))
  }

  function AllCommands(t: Tables): set<seq<Word>> {
    t.commands + set a | a in t.args
  }

  predicate TakesArg(t: Tables, c: seq<Word>) {
    c in t.args
  }

  predicate Sees(t: Tables, admin: bool, c: seq<Word>) {
    admin || c !in t.adminKeys
  }

  /** The words that can follow `p` in a command this user may see. */
  function NextWords(t: Tables, admin: bool, p: seq<Word>): set<Word> {
    set c | c in AllCommands(t) && p < c && Sees(t, admin, c) :: c[|p|]
  }

  datatype Resolution =
    | Resolved(words: seq<Word>, rest: seq<Word>)
    | Ambiguous(words: seq<Word>, typed: Word, choices: set<Word>)

  function Completions(choices: set<Word>, up: Word): set<Word> {
    set c | c in choices && up <= c
  }

  /** What one typed word stands for among the choices: an exact match wins, then a unique completion. */
  datatype Match = NoMatch | Unique(word: Word) | Several(choices: set<Word>)

  ghost function MatchWord(choices: set<Word>, typed: Word): Match {
    var up := Upper(typed);
    var some := Completions(choices, up);
    if up in choices then Unique(up)
    else if some == {} then NoMatch
    else if exists c :: some == {c} then
      var c :| some == {c};
      Unique(c)
    else Several(some)
  }

  /** The scan, after the words `done` have been resolved. */
  ghost function Scan(t: Tables, admin: bool, done: seq<Word>, tokens: seq<Word>): Resolution
    decreases tokens
  {
    if tokens == [] then Resolved(done, [])
    else match MatchWord(NextWords(t, admin, done), tokens[0])
      case NoMatch => Resolved(done, tokens)
      case Several(choices) => Ambiguous(done, tokens[0], choices)
      case Unique(w) =>
        if TakesArg(t, done + [w]) then Resolved(done + [w], tokens[1..])
        else Scan(t, admin, done + [w], tokens[1..])
  }

  ghost function Resolve(t: Tables, admin: bool, tokens: seq<Word>): Resolution {
    Scan(t, admin, [], tokens)
  }

  // ---- One word ---------------------------------------------------------------------------

  lemma MatchedIsChoice(choices: set<Word>, typed: Word)
    ensures MatchWord(choices, typed).Unique? ==>
              MatchWord(choices, typed).word in choices && Upper(typed) <= MatchWord(choices, typed).word
  {
    var some := Completions(choices, Upper(typed));
    if Upper(typed) !in choices && exists c :: some == {c} {
      var c :| some == {c} && MatchWord(choices, typed) == Unique(c);
      assert c in some;
    }
  }

  /** A typed word is ambiguous exactly when it is no choice itself and two choices begin with it. */
  lemma WhenAmbiguous(choices: set<Word>, typed: Word)
    ensures MatchWord(choices, typed).Several? <==>
              Upper(typed) !in choices && exists c, c' :: c != c' && c in Completions(choices, Upper(typed)) && c' in Completions(choices, Upper(typed))
  {
    var some := Completions(choices, Upper(typed));
    if some != {} {
      var c :| c in some;
      if some != {c} {
        assert exists c' :: c' in some && c' != c;
      }
    }
    if c :| some == {c} {
      assert forall d, d' :: d in some && d' in some ==> d == c && d' == c;
    }
  }

  lemma ExactMatch(choices: set<Word>, w: Word)
    requires w in choices && Shouted(w)
    ensures MatchWord(choices, w) == Unique(w)
  {
  }

  lemma NextShouted(t: Tables, admin: bool, p: seq<Word>)
    requires Canonical(t)
    ensures forall w :: w in NextWords(t, admin, p) ==> Shouted(w) && Wordy(w)
  {
  }

  lemma NextOf(t: Tables, admin: bool, p: seq<Word>, c: seq<Word>)
    requires c in AllCommands(t) && p < c && Sees(t, admin, c)
    ensures c[|p|] in NextWords(t, admin, p) && p + [c[|p|]] <= c
  {
  }

  // ---- What a resolution is -------------------------------------------------------------------

  /** The words resolved begin a command the user may see, and no argument-taking command comes before their end. */
  ghost predicate OnPath(t: Tables, admin: bool, p: seq<Word>) {
    && (p != [] ==> exists c :: c in AllCommands(t) && p <= c && Sees(t, admin, c))
    && (forall n :: 0 < n < |p| ==> !TakesArg(t, p[..n]))
  }

  lemma OnPathNext(t: Tables, admin: bool, p: seq<Word>, w: Word)
    requires OnPath(t, admin, p) && !(p != [] && TakesArg(t, p)) && w in NextWords(t, admin, p)
    ensures OnPath(t, admin, p + [w])
  {
    var c :| c in AllCommands(t) && p < c && Sees(t, admin, c) && c[|p|] == w;
    assert p + [w] <= c;
    forall n | 0 < n < |p + [w]| ensures !TakesArg(t, (p + [w])[..n]) {
      assert n <= |p| && (p + [w])[..n] == p[..n];
      assert n == |p| ==> p[..n] == p;
    }
  }

  lemma {:induction false} ScanIsOnPath(t: Tables, admin: bool, done: seq<Word>, tokens: seq<Word>)
    requires OnPath(t, admin, done) && !(done != [] && TakesArg(t, done))
    ensures var r := Scan(t, admin, done, tokens); OnPath(t, admin, r.words) && done <= r.words
    decreases tokens
  {
    if tokens != [] {
      MatchedIsChoice(NextWords(t, admin, done), tokens[0]);
      var m := MatchWord(NextWords(t, admin, done), tokens[0]);
      if m.Unique? {
        OnPathNext(t, admin, done, m.word);
        if !TakesArg(t, done + [m.word]) { ScanIsOnPath(t, admin, done + [m.word], tokens[1..]); }
      }
    }
  }

  /** Each resolved word completes the one typed; the rest is passed through as typed. */
  lemma {:induction false} ScanCompletes(t: Tables, admin: bool, done: seq<Word>, tokens: seq<Word>)
    requires Scan(t, admin, done, tokens).Resolved?
    ensures var r, n := Scan(t, admin, done, tokens), |Scan(t, admin, done, tokens).words| - |done|;
            && 0 <= n <= |tokens| && done <= r.words && r.rest == tokens[n..]
            && (forall i :: 0 <= i < n ==> Upper(tokens[i]) <= r.words[|done| + i])
    decreases tokens
  {
    if tokens != [] {
      MatchedIsChoice(NextWords(t, admin, done), tokens[0]);
      var m := MatchWord(NextWords(t, admin, done), tokens[0]);
      if m.Unique? && !TakesArg(t, done + [m.word]) {
        ScanCompletes(t, admin, done + [m.word], tokens[1..]);
        var r := Scan(t, admin, done, tokens);
        var n := |r.words| - |done|;
        assert r.words[|done|] == m.word;
        assert forall i :: 1 <= i < n ==> tokens[i] == tokens[1..][i - 1];
      }
    }
  }

  // ---- Stability --------------------------------------------------------------------------------

  /** A unique match is what it completes, typed exactly, and does not depend on what follows. */
  lemma MatchAgain(t: Tables, admin: bool, done: seq<Word>, typed: Word)
    requires Canonical(t) && MatchWord(NextWords(t, admin, done), typed).Unique?
    ensures var m := MatchWord(NextWords(t, admin, done), typed); MatchWord(NextWords(t, admin, done), m.word) == m
  {
    hide NextWords, Completions, Canonical;
    MatchedIsChoice(NextWords(t, admin, done), typed);
    NextShouted(t, admin, done);
    ExactMatch(NextWords(t, admin, done), MatchWord(NextWords(t, admin, done), typed).word);
  }

  /** Resolving a resolved line changes nothing. */
  lemma {:induction false} Idempotent(t: Tables, admin: bool, done: seq<Word>, tokens: seq<Word>)
    requires Canonical(t) && Scan(t, admin, done, tokens).Resolved?
    ensures var r := Scan(t, admin, done, tokens);
            done <= r.words && Scan(t, admin, done, r.words[|done|..] + r.rest) == r
    decreases tokens
  {
    hide MatchWord, Canonical, NextWords, TakesArg;
    var r := Scan(t, admin, done, tokens);
    if tokens == [] || MatchWord(NextWords(t, admin, done), tokens[0]) == NoMatch {
      assert r.words[|done|..] + r.rest == tokens;
    } else {
      var w := MatchWord(NextWords(t, admin, done), tokens[0]).word;
      MatchAgain(t, admin, done, tokens[0]);
      if TakesArg(t, done + [w]) {
        assert r.words[|done|..] + r.rest == [w] + tokens[1..];
      } else {
        Idempotent(t, admin, done + [w], tokens[1..]);
        OneWordOn(r.words, done, w, r.rest);
      }
    }
  }

  lemma OneWordOn(words: seq<Word>, done: seq<Word>, w: Word, rest: seq<Word>)
    requires done + [w] <= words
    ensures done <= words && words[|done|..] + rest == [w] + (words[|done + [w]|..] + rest)
  {
    assert words[|done|] == (done + [w])[|done|];
  }

  /** A command the user may see, typed out, is left as it is. */
  lemma {:induction false} CanonicalStays(t: Tables, admin: bool, done: seq<Word>, c: seq<Word>)
    requires Canonical(t) && c in AllCommands(t) && Sees(t, admin, c) && done <= c
    ensures var r := Scan(t, admin, done, c[|done|..]); r.Resolved? && r.words + r.rest == c
    decreases |c| - |done|
  {
    if done == c {
      assert c[|done|..] == [];
    } else {
      var w := c[|done|];
      NextOf(t, admin, done, c);
      NextShouted(t, admin, done);
      ExactMatch(NextWords(t, admin, done), w);
      assert c[|done|..][0] == w && c[|done|..][1..] == c[|done + [w]|..];
      if !TakesArg(t, done + [w]) {
        CanonicalStays(t, admin, done + [w], c);
      } else {
        assert done + [w] + c[|done + [w]|..] == c;
      }
    }
  }

  // ---- Role independence ------------------------------------------------------------------------

  /** The tables without the commands only an admin may see. */
  function UserTables(t: Tables): Tables {
    Tables((set c | c in t.commands && c !in t.adminKeys), UserArgs(t.args, t.adminKeys), t.adminKeys)
  }

  function UserArgs(args: seq<seq<Word>>, adminKeys: set<seq<Word>>): (r: seq<seq<Word>>)
    ensures forall a :: a in r <==> a in args && a !in adminKeys
  {
    if args == [] then []
    else (if args[0] !in adminKeys then [args[0]] else []) + UserArgs(args[1..], adminKeys)
  }

  lemma SameChoices(t: Tables, p: seq<Word>)
    ensures NextWords(UserTables(t), false, p) == NextWords(t, false, p)
  {
    assert forall c :: c in AllCommands(UserTables(t)) <==> c in AllCommands(t) && c !in t.adminKeys;
  }

  /**
    No argument-taking admin command cuts short a user command, unless an
    argument-taking user command cuts it shorter still.
   */
  ghost predicate AdminArgsApart(t: Tables) {
    forall a, u :: a in t.args && a in t.adminKeys && u in AllCommands(t) && u !in t.adminKeys && a < u && a != [] ==>
      exists n :: 0 < n < |a| && a[..n] in t.args && a[..n] !in t.adminKeys
  }

  /** The condition that the shipped tables meet. */
  lemma DisjointMeans(t: Tables)
    requires forall a, u :: a in t.args && a in t.adminKeys && u in AllCommands(t) && u !in t.adminKeys ==> !(a < u)
    ensures AdminArgsApart(t)
  {
  }

  lemma EarlierStop(t: Tables, p: seq<Word>, u: seq<Word>)
    requires AdminArgsApart(t) && p != [] && u in AllCommands(t) && u !in t.adminKeys && p <= u
    ensures p in t.args && p in t.adminKeys ==> exists n :: 0 < n < |p| && TakesArg(t, p[..n])
  {
    assert |p| == |u| ==> p == u;
    if p in t.args && p in t.adminKeys {
      var n :| 0 < n < |p| && p[..n] in t.args && p[..n] !in t.adminKeys;
      assert TakesArg(t, p[..n]);
    }
  }

  /** On the way to a user command, an admin's argument-taking command is never what stops the scan. */
  lemma StopsAlike(t: Tables, p: seq<Word>)
    requires AdminArgsApart(t) && p != [] && OnPath(t, false, p)
    ensures TakesArg(t, p) <==> TakesArg(UserTables(t), p)
  {
    var u :| u in AllCommands(t) && p <= u && Sees(t, false, u);
    EarlierStop(t, p, u);
  }

  lemma {:induction false} SameScan(t: Tables, done: seq<Word>, tokens: seq<Word>)
    requires AdminArgsApart(t) && OnPath(t, false, done) && !(done != [] && TakesArg(t, done))
    ensures Scan(t, false, done, tokens) == Scan(UserTables(t), false, done, tokens)
    decreases tokens
  {
    SameChoices(t, done);
    if tokens != [] {
      MatchedIsChoice(NextWords(t, false, done), tokens[0]);
      var m := MatchWord(NextWords(t, false, done), tokens[0]);
      if m.Unique? {
        OnPathNext(t, false, done, m.word);
        StopsAlike(t, done + [m.word]);
        if !TakesArg(t, done + [m.word]) { SameScan(t, done + [m.word], tokens[1..]); }
      }
    }
  }

  /** Typed out, a command is never ambiguous; the scan stops at its first argument-taking prefix, or at the end. */
  lemma {:induction false} TypedOut(t: Tables, done: seq<Word>, c: seq<Word>, n: nat)
    requires Canonical(t) && c in AllCommands(t) && c !in t.adminKeys && done <= c && |done| <= n <= |c|
    requires forall k :: |done| < k < n ==> !TakesArg(t, c[..k])
    ensures var r := Scan(t, false, done, c[|done|..]);
            r.Resolved? && r.words <= c && |r.words| >= n && (n < |c| && n > |done| && TakesArg(t, c[..n]) ==> |r.words| == n)
    decreases |c| - |done|
  {
    if done == c {
      assert c[|done|..] == [];
    } else {
      var w := c[|done|];
      NextOf(t, false, done, c);
      NextShouted(t, false, done);
      ExactMatch(NextWords(t, false, done), w);
      assert c[|done|..][0] == w && c[|done|..][1..] == c[|done + [w]|..];
      assert c[..|done| + 1] == done + [w];
      if !TakesArg(t, done + [w]) {
        TypedOut(t, done + [w], c, if n > |done| then n else n + 1);
      }
    }
  }

  /**
    Exactly under that condition does a user's every line resolve as if the admin
    commands did not exist.
   */
  lemma RoleIndependence(t: Tables)
    requires Canonical(t)
    ensures AdminArgsApart(t) <==> forall tokens :: Resolve(t, false, tokens) == Resolve(UserTables(t), false, tokens)
  {
    if AdminArgsApart(t) {
      forall tokens ensures Resolve(t, false, tokens) == Resolve(UserTables(t), false, tokens) {
        SameScan(t, [], tokens);
      }
    } else {
      var a, u :| a in t.args && a in t.adminKeys && u in AllCommands(t) && u !in t.adminKeys && a < u && a != []
                  && !exists n :: 0 < n < |a| && a[..n] in t.args && a[..n] !in t.adminKeys;
      CutShort(t, a, u);
    }
  }

  lemma CutShort(t: Tables, a: seq<Word>, u: seq<Word>)
    requires Canonical(t) && a in t.args && a in t.adminKeys && u in AllCommands(t) && u !in t.adminKeys && a < u && a != []
    requires forall n :: 0 < n < |a| ==> !(a[..n] in t.args && a[..n] !in t.adminKeys)
    ensures Resolve(t, false, u) != Resolve(UserTables(t), false, u)
  {
    assert u[..|a|] == a;
    var k := FirstStop(t, u, |a|);
    assert u[0..] == u;
    TypedOut(t, [], u, k);
    forall n | 0 < n < |a| + 1 ensures !TakesArg(UserTables(t), u[..n]) {
      assert u[..n] == if n == |a| then a else a[..n];
    }
    assert u in AllCommands(UserTables(t)) && Canonical(UserTables(t));
    TypedOut(UserTables(t), [], u, |a| + 1);
  }

  /** The first prefix that takes an argument, no later than `n`. */
  ghost function FirstStop(t: Tables, u: seq<Word>, n: nat): (k: nat)
    requires 0 < n <= |u| && TakesArg(t, u[..n])
    ensures 0 < k <= n && TakesArg(t, u[..k]) && forall j :: 0 < j < k ==> !TakesArg(t, u[..j])
    decreases n
  {
    if j :| 0 < j < n && TakesArg(t, u[..j]) then FirstStop(t, u, j) else n
  }
}
