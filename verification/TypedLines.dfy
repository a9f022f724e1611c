/**
  The command line knows no case: how a word is typed is never told apart beyond its
  letters, from the fields of a line to the command that dispatch selects. What the
  resolver resolves is also said outright here, without its scan.
 */
module TypedLines {
  import opened Wrappers
  import opened Ordering
  import opened Words
  import opened Abbreviation
  import opened Dispatch

  // ---- Upper case -----------------------------------------------------------------------

  predicate HasSmall(s: string) {
    exists i :: 0 <= i < |s| && 'a' <= s[i] <= 'z'
  }

  /** Upper changes nothing but the case of letters, and leaves no small one. */
  lemma UpperMeans(s: string)
    ensures SameLetters(Upper(s), s) && !HasSmall(Upper(s))
    ensures Shouted(s) <==> !HasSmall(s)
  {
    if !HasSmall(s) { assert forall i :: 0 <= i < |s| ==> Upper(s)[i] == s[i]; }
    if Shouted(s) { assert forall i :: 0 <= i < |s| ==> Upper(s)[i] == s[i]; }
  }

  lemma UpperFolds(a: string, b: string)
    ensures SameLetters(a, b) <==> Upper(a) == Upper(b)
  {
    if |a| == |b| {
      forall i | 0 <= i < |a| ensures SameLetter(a[i], b[i]) <==> Upper(a)[i] == Upper(b)[i] {
      }
    }
  }

  predicate AllSameLetters(ws: seq<Word>, vs: seq<Word>) {
    |ws| == |vs| && forall i :: 0 <= i < |ws| ==> SameLetters(ws[i], vs[i])
  }

  lemma SameLettersSelf(s: string)
    ensures SameLetters(s, s)
  {
  }

  lemma {:induction false} WordLengthFolds(a: string, b: string)
    requires SameLetters(a, b)
    ensures WordLength(a) == WordLength(b)
    decreases a
  {
    if a != [] && !Space(a[0]) {
      assert forall i :: 0 <= i < |a| - 1 ==> a[1..][i] == a[i + 1] && b[1..][i] == b[i + 1];
      WordLengthFolds(a[1..], b[1..]);
    }
  }

  lemma SlicesFold(a: string, b: string, n: nat)
    requires SameLetters(a, b) && n <= |a|
    ensures SameLetters(a[..n], b[..n]) && SameLetters(a[n..], b[n..])
  {
    assert forall i :: 0 <= i < |a| - n ==> a[n..][i] == a[n + i] && b[n..][i] == b[n + i];
  }

  /** Lines that differ in case have fields that differ in case. */
  lemma {:induction false} FieldsFold(a: string, b: string)
    requires SameLetters(a, b)
    ensures AllSameLetters(Fields(a), Fields(b))
    decreases |a|
  {
    hide SameLetters, Fields, WordLength;
    FieldsOfNothing();
    SameLength(a, b);
    if a != [] {
      FieldsUnfold(a);
      FieldsUnfold(b);
      SpacesFold(a, b);
      if Space(a[0]) {
        SlicesFold(a, b, 1);
        FieldsFold(a[1..], b[1..]);
      } else {
        var n := WordLength(a);
        WordLengthFolds(a, b);
        FieldsProgress(a);
        SlicesFold(a, b, n);
        FieldsFold(a[n..], b[n..]);
      }
    }
  }

  lemma FieldsOfNothing()
    ensures Fields("") == []
  {
  }

  lemma FieldsProgress(a: string)
    requires a != [] && !Space(a[0])
    ensures WordLength(a) > 0
  {
  }

  lemma SameLength(a: string, b: string)
    requires SameLetters(a, b)
    ensures |a| == |b|
  {
  }

  lemma SpacesFold(a: string, b: string)
    requires SameLetters(a, b)
    ensures forall i :: 0 <= i < |a| ==> i < |b| && (Space(a[i]) <==> Space(b[i]))
  {
    forall i | 0 <= i < |a| ensures Space(a[i]) <==> Space(b[i]) { assert SameLetter(a[i], b[i]); }
  }

  lemma {:induction false} TrimLeftFolds(a: string, b: string)
    requires SameLetters(a, b)
    ensures SameLetters(TrimLeft(a), TrimLeft(b))
    decreases a
  {
    SpacesFold(a, b);
    if a != [] && Space(a[0]) {
      SlicesFold(a, b, 1);
      TrimLeftFolds(a[1..], b[1..]);
    }
  }

  lemma {:induction false} TrimRightFolds(a: string, b: string)
    requires SameLetters(a, b)
    ensures SameLetters(TrimRight(a), TrimRight(b))
    decreases |a|
  {
    SpacesFold(a, b);
    if a != [] && Space(a[|a| - 1]) {
      SlicesFold(a, b, |a| - 1);
      TrimRightFolds(a[..|a| - 1], b[..|b| - 1]);
    }
  }

  lemma TrimFolds(a: string, b: string)
    requires SameLetters(a, b)
    ensures SameLetters(Trim(a), Trim(b))
  {
    TrimLeftFolds(a, b);
    TrimRightFolds(TrimLeft(a), TrimLeft(b));
  }

  lemma ConcatFolds(a: string, b: string, c: string, d: string)
    requires SameLetters(a, b) && SameLetters(c, d)
    ensures SameLetters(a + c, b + d)
  {
  }

  lemma {:induction false} JoinFolds(ws: seq<Word>, vs: seq<Word>)
    requires AllSameLetters(ws, vs)
    ensures SameLetters(Join(ws), Join(vs))
    decreases ws
  {
    hide SameLetters;
    if |ws| == 0 {
      SameLettersSelf("");
    } else if |ws| > 1 {
      JoinFolds(ws[1..], vs[1..]);
      SameLettersSelf(" ");
      ConcatFolds(ws[0], vs[0], " ", " ");
      ConcatFolds(ws[0] + " ", vs[0] + " ", Join(ws[1..]), Join(vs[1..]));
    }
  }

  // ---- One word -----------------------------------------------------------------------------

  /** The word begins with what was typed, in whatever case. */
  predicate BeginsAs(typed: Word, w: Word) {
    |typed| <= |w| && SameLetters(typed, w[..|typed|])
  }

  lemma BeginsMeans(typed: Word, w: Word)
    requires !HasSmall(w)
    ensures BeginsAs(typed, w) <==> Upper(typed) <= w
    ensures SameLetters(typed, w) <==> Upper(typed) == w
  {
    UpperMeans(w);
    UpperFolds(typed, w);
    if |typed| <= |w| {
      var p := w[..|typed|];
      UpperFolds(typed, p);
      UpperMeans(p);
      SmallInPrefix(w, |typed|);
    }
  }

  lemma SmallInPrefix(w: Word, n: nat)
    requires n <= |w|
    ensures HasSmall(w[..n]) ==> HasSmall(w)
  {
    if i :| 0 <= i < n && 'a' <= w[..n][i] <= 'z' { assert 'a' <= w[i] <= 'z'; }
  }

  /** What the typed word stands for: the word itself, or the only one that begins with it. */
  ghost predicate StandsFor(choices: set<Word>, typed: Word, w: Word) {
    w in choices && (SameLetters(typed, w) || (BeginsAs(typed, w) && forall v :: v in choices && BeginsAs(typed, v) ==> v == w))
  }

  /** Which of the three matches it is, by the letters alone. */
  lemma MatchMeans(choices: set<Word>, typed: Word)
    requires forall w :: w in choices ==> !HasSmall(w)
    ensures var m := MatchWord(choices, typed);
            && (m == NoMatch <==> forall w :: w in choices ==> !BeginsAs(typed, w))
            && (forall w :: m == Unique(w) <==> StandsFor(choices, typed, w))
            && (m.Several? <==> (forall w :: w in choices ==> !SameLetters(typed, w))
                                && exists v, w :: v in choices && w in choices && v != w && BeginsAs(typed, v) && BeginsAs(typed, w))
            && (m.Several? ==> forall w :: w in m.choices <==> w in choices && BeginsAs(typed, w))
  {
    var up, some := Upper(typed), Completions(choices, Upper(typed));
    forall w | w in choices ensures (BeginsAs(typed, w) <==> up <= w) && (SameLetters(typed, w) <==> up == w) { BeginsMeans(typed, w); }
    hide SameLetters, BeginsAs, Upper, HasSmall;
    if up in choices {
      assert forall w :: StandsFor(choices, typed, w) ==> w == up || up in some;
      assert MatchWord(choices, typed) == Unique(up);
    } else if some == {} {
      assert forall w :: w in choices && up <= w ==> w in some;
    } else if c :| some == {c} {
      assert MatchWord(choices, typed) == Unique(c);
      assert forall w :: w in choices && up <= w ==> w in some;
      assert c in some;
    } else {
      var v :| v in some;
      assert some != {v};
      var w :| w in some && w != v;
      assert MatchWord(choices, typed) == Several(some);
    }
  }

  // ---- Whole lines of words ------------------------------------------------------------------

  /** Some command that the user may see goes on with `w` after `p`. */
  ghost predicate CanFollow(t: Tables, admin: bool, p: seq<Word>, w: Word) {
    exists c :: (c in t.commands || c in t.args) && (admin || c !in t.adminKeys) && p + [w] <= c
  }

  lemma FollowMeans(t: Tables, admin: bool, p: seq<Word>, w: Word)
    ensures w in NextWords(t, admin, p) <==> CanFollow(t, admin, p, w)
  {
    if c :| c in AllCommands(t) && p < c && Sees(t, admin, c) && c[|p|] == w { assert p + [w] <= c; }
    if c :| (c in t.commands || c in t.args) && (admin || c !in t.adminKeys) && p + [w] <= c {
      assert c in AllCommands(t) && p < c && c[|p|] == w;
    }
  }

  /** After `p`, the typed word stands for `w`: it is `w`, or `w` alone can follow and begin with it. */
  ghost predicate Chosen(t: Tables, admin: bool, p: seq<Word>, typed: Word, w: Word) {
    && CanFollow(t, admin, p, w)
    && (SameLetters(typed, w) || (BeginsAs(typed, w) && forall v :: CanFollow(t, admin, p, v) && BeginsAs(typed, v) ==> v == w))
  }

  /** Nothing that can follow begins with the typed word. */
  ghost predicate Unmatched(t: Tables, admin: bool, p: seq<Word>, typed: Word) {
    forall w :: CanFollow(t, admin, p, w) ==> !BeginsAs(typed, w)
  }

  /** Two words or more that can follow begin with it, and none is it. */
  ghost predicate Torn(t: Tables, admin: bool, p: seq<Word>, typed: Word) {
    && (forall w :: CanFollow(t, admin, p, w) ==> !SameLetters(typed, w))
    && exists v, w :: v != w && CanFollow(t, admin, p, v) && CanFollow(t, admin, p, w) && BeginsAs(typed, v) && BeginsAs(typed, w)
  }

  lemma ChoiceMeans(t: Tables, admin: bool, p: seq<Word>, typed: Word)
    requires Canonical(t)
    ensures var m := MatchWord(NextWords(t, admin, p), typed);
            && (m == NoMatch <==> Unmatched(t, admin, p, typed))
            && (forall w :: m == Unique(w) <==> Chosen(t, admin, p, typed, w))
            && (m.Several? <==> Torn(t, admin, p, typed))
            && (m.Several? ==> forall w :: w in m.choices <==> CanFollow(t, admin, p, w) && BeginsAs(typed, w))
  {
    hide Canonical, MatchWord, SameLetters, BeginsAs, CanFollow, NextWords, Shouted, HasSmall;
    var choices := NextWords(t, admin, p);
    NextShouted(t, admin, p);
    forall w | w in choices ensures !HasSmall(w) { UpperMeans(w); }
    forall w ensures w in choices <==> CanFollow(t, admin, p, w) { FollowMeans(t, admin, p, w); }
    MatchMeans(choices, typed);
  }

  /**
    The words of `words` past `done` are what the first tokens stand for, one after
    the other, and no argument-taking command ends before the last of them.
   */
  ghost predicate Walks(t: Tables, admin: bool, done: seq<Word>, tokens: seq<Word>, words: seq<Word>) {
    && done <= words && |words| - |done| <= |tokens|
    && (forall i :: 0 <= i < |words| - |done| ==> Chosen(t, admin, words[..|done| + i], tokens[i], words[|done| + i]))
    && (forall n :: |done| < n < |words| ==> words[..n] !in t.args)
  }

  /** Why resolving stops with the words that the first `k` tokens stand for. */
  ghost predicate Stops(t: Tables, admin: bool, tokens: seq<Word>, k: nat, r: Resolution)
    requires k <= |tokens|
  {
    match r
    case Resolved(words, rest) =>
      && rest == tokens[k..]
      && (rest != [] ==> (k > 0 && words in t.args) || Unmatched(t, admin, words, rest[0]))
    case Ambiguous(words, typed, choices) =>
      && k < |tokens| && typed == tokens[k] && !(k > 0 && words in t.args)
      && Torn(t, admin, words, typed)
      && forall w :: w in choices <==> CanFollow(t, admin, words, w) && BeginsAs(typed, w)
  }

  /** What resolving the tokens after `done` comes to. */
  ghost predicate Means(t: Tables, admin: bool, done: seq<Word>, tokens: seq<Word>, r: Resolution) {
    Walks(t, admin, done, tokens, r.words) && Stops(t, admin, tokens, |r.words| - |done|, r)
  }

  lemma WalksOn(t: Tables, admin: bool, done: seq<Word>, tokens: seq<Word>, w: Word, words: seq<Word>)
    requires tokens != [] && done + [w] <= words
    ensures Walks(t, admin, done, tokens, words) <==>
              && Chosen(t, admin, done, tokens[0], w) && Walks(t, admin, done + [w], tokens[1..], words)
              && (|words| > |done| + 1 ==> done + [w] !in t.args)
  {
    hide Chosen;
    var n := |done|;
    assert words[n] == w && words[..n] == done && words[..n + 1] == done + [w];
    if Walks(t, admin, done, tokens, words) {
      assert Chosen(t, admin, words[..n + 0], tokens[0], words[n + 0]);
      forall i | 0 <= i < |words| - (n + 1) ensures Chosen(t, admin, words[..n + 1 + i], tokens[1..][i], words[n + 1 + i]) {
        assert Chosen(t, admin, words[..n + (i + 1)], tokens[i + 1], words[n + (i + 1)]);
      }
    }
    if Chosen(t, admin, done, tokens[0], w) && Walks(t, admin, done + [w], tokens[1..], words) && (|words| > n + 1 ==> done + [w] !in t.args) {
      forall i | 0 <= i < |words| - n ensures Chosen(t, admin, words[..n + i], tokens[i], words[n + i]) {
        if i > 0 { assert Chosen(t, admin, words[..n + 1 + (i - 1)], tokens[1..][i - 1], words[n + 1 + (i - 1)]); }
      }
      forall m | n < m < |words| ensures words[..m] !in t.args {
        assert m > n + 1 ==> |done + [w]| < m;
      }
    }
  }

  /** One word on, where the token stands for `w`. */
  lemma MeansOn(t: Tables, admin: bool, done: seq<Word>, tokens: seq<Word>, w: Word, r: Resolution)
    requires tokens != [] && Chosen(t, admin, done, tokens[0], w) && done + [w] !in t.args
    requires done + [w] <= r.words
    ensures Means(t, admin, done, tokens, r) <==> Means(t, admin, done + [w], tokens[1..], r)
  {
    hide Chosen, Walks, Stops;
    WalksOn(t, admin, done, tokens, w, r.words);
    WalksFit(t, admin, done, tokens, r.words);
    if Walks(t, admin, done, tokens, r.words) {
      var k := |r.words| - |done|;
      assert k == 1 ==> r.words == done + [w];
      StopsOn(t, admin, tokens, k, r);
    }
  }

  lemma StopsOn(t: Tables, admin: bool, tokens: seq<Word>, k: nat, r: Resolution)
    requires 0 < k <= |tokens| && (k == 1 ==> r.words !in t.args)
    ensures Stops(t, admin, tokens, k, r) <==> Stops(t, admin, tokens[1..], k - 1, r)
  {
    hide Torn, Unmatched, CanFollow, BeginsAs;
    assert tokens[k..] == tokens[1..][k - 1..];
    assert k < |tokens| ==> tokens[k] == tokens[1..][k - 1];
  }

  lemma WalksFit(t: Tables, admin: bool, done: seq<Word>, tokens: seq<Word>, words: seq<Word>)
    ensures Walks(t, admin, done, tokens, words) ==> done <= words && |words| - |done| <= |tokens|
  {
  }

  /** Past its first word, a resolution goes on as that of the other tokens. */
  lemma MeansFirst(t: Tables, admin: bool, done: seq<Word>, tokens: seq<Word>, r: Resolution)
    requires Means(t, admin, done, tokens, r) && |r.words| > |done|
    ensures tokens != [] && done + [r.words[|done|]] <= r.words && Chosen(t, admin, done, tokens[0], r.words[|done|])
    ensures |r.words| > |done| + 1 ==> done + [r.words[|done|]] !in t.args
  {
    hide Chosen, Torn, Unmatched, CanFollow, BeginsAs;
    var n := |done|;
    assert Chosen(t, admin, r.words[..n + 0], tokens[0], r.words[n + 0]);
    assert r.words[..n] == done && r.words[..n + 1] == done + [r.words[n]];
  }

  lemma MeansNow(t: Tables, admin: bool, done: seq<Word>, tokens: seq<Word>, r: Resolution)
    requires r.words == done
    ensures Means(t, admin, done, tokens, r) <==>
              match r
              case Resolved(words, rest) => rest == tokens && (tokens != [] ==> Unmatched(t, admin, done, tokens[0]))
              case Ambiguous(words, typed, choices) =>
                && tokens != [] && typed == tokens[0] && Torn(t, admin, done, typed)
                && forall w :: w in choices <==> CanFollow(t, admin, done, w) && BeginsAs(typed, w)
  {
    hide Chosen, Torn, Unmatched, CanFollow, BeginsAs;
    assert tokens[0..] == tokens;
  }

  /** The scan finds exactly what that says. */
  lemma {:induction false} ScanMeans(t: Tables, admin: bool, done: seq<Word>, tokens: seq<Word>, r: Resolution)
    requires Canonical(t)
    ensures r == Scan(t, admin, done, tokens) <==> Means(t, admin, done, tokens, r)
    decreases tokens
  {
    hide Canonical, MatchWord, Chosen, Torn, Unmatched, CanFollow, BeginsAs, NextWords, Means;
    if tokens == [] {
      NoTokens(t, admin, done, r);
    } else {
      ChoiceMeans(t, admin, done, tokens[0]);
      var m := MatchWord(NextWords(t, admin, done), tokens[0]);
      if m.Unique? {
        UniqueMeans(t, admin, done, tokens, m.word, r);
        if done + [m.word] !in t.args { ScanMeans(t, admin, done + [m.word], tokens[1..], r); }
      } else {
        StopMeans(t, admin, done, tokens, r);
      }
    }
  }

  lemma NoTokens(t: Tables, admin: bool, done: seq<Word>, r: Resolution)
    ensures r == Resolved(done, []) <==> Means(t, admin, done, [], r)
  {
    hide Chosen, Torn, Unmatched, CanFollow, BeginsAs;
    if Means(t, admin, done, [], r) { assert |r.words| == |done| && r.words == done; }
  }

  lemma UniqueMeans(t: Tables, admin: bool, done: seq<Word>, tokens: seq<Word>, w: Word, r: Resolution)
    requires tokens != [] && Chosen(t, admin, done, tokens[0], w)
    requires forall v :: Chosen(t, admin, done, tokens[0], v) <==> v == w
    requires !Unmatched(t, admin, done, tokens[0]) && !Torn(t, admin, done, tokens[0])
    ensures done + [w] in t.args ==> (r == Resolved(done + [w], tokens[1..]) <==> Means(t, admin, done, tokens, r))
    ensures done + [w] !in t.args ==> (Means(t, admin, done + [w], tokens[1..], r) <==> Means(t, admin, done, tokens, r))
  {
    hide Chosen, Torn, Unmatched, CanFollow, BeginsAs, Means, Walks;
    if Means(t, admin, done, tokens, r) {
      MeansLonger(t, admin, done, tokens, r);
      MeansFirst(t, admin, done, tokens, r);
    }
    if Means(t, admin, done + [w], tokens[1..], r) { MeansExtends(t, admin, done + [w], tokens[1..], r); }
    if done + [w] !in t.args {
      if done + [w] <= r.words { MeansOn(t, admin, done, tokens, w, r); }
    } else {
      ArgStops(t, admin, done, tokens, w, r);
    }
  }

  lemma MeansExtends(t: Tables, admin: bool, done: seq<Word>, tokens: seq<Word>, r: Resolution)
    requires Means(t, admin, done, tokens, r)
    ensures done <= r.words
  {
  }

  lemma MeansLonger(t: Tables, admin: bool, done: seq<Word>, tokens: seq<Word>, r: Resolution)
    requires tokens != [] && Means(t, admin, done, tokens, r)
    requires !Unmatched(t, admin, done, tokens[0]) && !Torn(t, admin, done, tokens[0])
    ensures |r.words| > |done|
  {
    hide Chosen, Torn, Unmatched, CanFollow, BeginsAs;
    MeansExtends(t, admin, done, tokens, r);
    if |r.words| == |done| {
      assert r.words == done;
      MeansNow(t, admin, done, tokens, r);
    }
  }

  lemma ArgStops(t: Tables, admin: bool, done: seq<Word>, tokens: seq<Word>, w: Word, r: Resolution)
    requires tokens != [] && Chosen(t, admin, done, tokens[0], w) && done + [w] in t.args
    requires Means(t, admin, done, tokens, r) ==> |r.words| == |done| + 1 && r.words == done + [w]
    ensures r == Resolved(done + [w], tokens[1..]) <==> Means(t, admin, done, tokens, r)
  {
    hide Chosen, Torn, Unmatched, CanFollow, BeginsAs;
    if r.words == done + [w] {
      WalksOn(t, admin, done, tokens, w, r.words);
      assert Walks(t, admin, done + [w], tokens[1..], r.words);
    }
  }

  lemma StopMeans(t: Tables, admin: bool, done: seq<Word>, tokens: seq<Word>, r: Resolution)
    requires tokens != [] && forall w :: !Chosen(t, admin, done, tokens[0], w)
    requires Unmatched(t, admin, done, tokens[0]) || Torn(t, admin, done, tokens[0])
    ensures Means(t, admin, done, tokens, r) ==> r.words == done
    ensures r.words == done ==>
              (Means(t, admin, done, tokens, r) <==>
                 match r
                 case Resolved(words, rest) => rest == tokens && Unmatched(t, admin, done, tokens[0])
                 case Ambiguous(words, typed, choices) =>
                   && typed == tokens[0] && Torn(t, admin, done, typed)
                   && forall w :: w in choices <==> CanFollow(t, admin, done, w) && BeginsAs(typed, w))
  {
    hide Chosen, Torn, Unmatched, CanFollow, BeginsAs;
    if Means(t, admin, done, tokens, r) {
      MeansExtends(t, admin, done, tokens, r);
      if |r.words| > |done| { MeansFirst(t, admin, done, tokens, r); } else { assert r.words == done; }
    }
    if r.words == done { MeansNow(t, admin, done, tokens, r); }
  }

  /**
    What resolving a line is, without the scan: each word up to where it stops is
    chosen by the letters typed among the words that can follow; it stops after an
    argument-taking command, where nothing that can follow begins with what is typed,
    or, ambiguously, where several words do and none is it.
   */
  lemma ResolveMeans(t: Tables, admin: bool, tokens: seq<Word>, r: Resolution)
    requires Canonical(t)
    ensures r == Resolve(t, admin, tokens) <==> Means(t, admin, [], tokens, r)
  {
    ScanMeans(t, admin, [], tokens, r);
  }

  // ---- The same line in another case -------------------------------------------------------------

  predicate SameResolution(r: Resolution, r': Resolution) {
    match r
    case Resolved(words, rest) => r'.Resolved? && r'.words == words && AllSameLetters(rest, r'.rest)
    case Ambiguous(words, typed, choices) => r'.Ambiguous? && r'.words == words && SameLetters(typed, r'.typed) && r'.choices == choices
  }

  /** Tokens that differ in case resolve alike; only what is passed through keeps its own case. */
  lemma {:induction false} ScanFolds(t: Tables, admin: bool, done: seq<Word>, tokens: seq<Word>, tokens': seq<Word>)
    requires AllSameLetters(tokens, tokens')
    ensures SameResolution(Scan(t, admin, done, tokens), Scan(t, admin, done, tokens'))
    decreases tokens
  {
    hide SameLetters, NextWords, TakesArg;
    if tokens != [] {
      UpperFolds(tokens[0], tokens'[0]);
      var m := MatchWord(NextWords(t, admin, done), tokens[0]);
      assert m == MatchWord(NextWords(t, admin, done), tokens'[0]);
      hide MatchWord;
      if m.Unique? && !TakesArg(t, done + [m.word]) { ScanFolds(t, admin, done + [m.word], tokens[1..], tokens'[1..]); }
    }
  }

  predicate SameOutcome(o: Outcome, o': Outcome) {
    match o
    case Asks(typed, words, choices) => o'.Asks? && SameLetters(typed, o'.typed) && o'.words == words && o'.choices == choices
    case Unknown => o' == Unknown
    case Runs(c) => o' == Runs(c)
    case RunsWithArg(c, arg) => o'.RunsWithArg? && o'.command == c && SameLetters(arg, o'.arg)
  }

  lemma LinesFold(line: string, line': string, words: seq<Word>, rest: seq<Word>, rest': seq<Word>)
    requires SameLetters(line, line') && AllSameLetters(rest, rest')
    ensures SameLetters(LineOf(line, words, rest), LineOf(line', words, rest'))
  {
    hide SameLetters;
    forall i | 0 <= i < |words + rest| ensures SameLetters((words + rest)[i], (words + rest')[i]) {
      if i < |words| { SameLettersSelf(words[i]); }
    }
    JoinFolds(words + rest, words + rest');
  }

  lemma RunFolds(t: Tables, admin: bool, line: string, line': string)
    requires SameLetters(line, line')
    ensures SameOutcome(RunTables(t, admin, line), RunTables(t, admin, line'))
  {
    hide SameLetters, Trim, Join, IsKey, Fields;
    TrimFolds(line, line');
    UpperFolds(Trim(line), Trim(line'));
    SameLength(line, line');
    match FirstArg(t.args, Upper(Trim(line)))
    case Some(a) =>
      ArgFits(line, a);
      SlicesFold(line, line', |Join(a) + " "|);
      TrimFolds(line[|Join(a) + " "|..], line'[|Join(a) + " "|..]);
    case None =>
  }

  /** Two lines that differ in case alone select the same command; its argument keeps the case it was typed in. */
  lemma DispatchFolds(t: Tables, admin: bool, line: string, line': string)
    requires SameLetters(line, line')
    ensures SameOutcome(DispatchOf(t, admin, line), DispatchOf(t, admin, line'))
  {
    hide SameLetters, RunTables, Scan, LineOf;
    FieldsFold(line, line');
    ScanFolds(t, admin, [], Fields(line), Fields(line'));
    match Resolve(t, admin, Fields(line))
    case Resolved(words, rest) =>
      var rest' := Resolve(t, admin, Fields(line')).rest;
      LinesFold(line, line', words, rest, rest');
      RunFolds(t, admin, LineOf(line, words, rest), LineOf(line', words, rest'));
    case Ambiguous(_, _, _) =>
  }

  // ---- Commands typed out ---------------------------------------------------------------------------

  /** No argument-taking command ends before `c` does. */
  ghost predicate Unbroken(t: Tables, c: seq<Word>) {
    forall n :: 0 < n < |c| ==> c[..n] !in t.args
  }

  lemma {:induction false} ResolvesFully(t: Tables, admin: bool, done: seq<Word>, c: seq<Word>, rest: seq<Word>)
    requires Canonical(t) && c in AllCommands(t) && Sees(t, admin, c) && done <= c && Unbroken(t, c)
    requires rest != [] ==> done < c && c in t.args
    ensures Scan(t, admin, done, c[|done|..] + rest) == Resolved(c, rest)
    decreases |c| - |done|
  {
    hide Canonical, AllCommands, Sees, NextWords, MatchWord;
    if done == c {
      assert c[|done|..] + rest == [];
    } else {
      var w := c[|done|];
      NextOf(t, admin, done, c);
      NextShouted(t, admin, done);
      ExactMatch(NextWords(t, admin, done), w);
      assert c[|done|..] + rest == [w] + (c[|done + [w]|..] + rest);
      assert c[..|done| + 1] == done + [w];
      if |done| + 1 < |c| {
        ResolvesFully(t, admin, done + [w], c, rest);
      } else {
        assert done + [w] == c && c[|done + [w]|..] + rest == rest;
      }
    }
  }

  lemma SameWords(ws: seq<Word>, vs: seq<Word>, rest: seq<Word>)
    requires AllSameLetters(ws, vs)
    ensures AllSameLetters(ws + rest, vs + rest)
  {
    hide SameLetters;
    forall i | 0 <= i < |ws + rest| ensures SameLetters((ws + rest)[i], (vs + rest)[i]) {
      if i >= |ws| { SameLettersSelf(rest[i - |ws|]); }
    }
  }

  /** A visible command, typed in any mixture of cases and with any spacing, is the command that runs. */
  lemma RunsTyped(t: Tables, admin: bool, line: string, c: seq<Word>)
    requires Canonical(t) && c in t.commands && Sees(t, admin, c) && Unbroken(t, c)
    requires AllSameLetters(Fields(line), c)
    ensures DispatchOf(t, admin, line) == Runs(c)
  {
    hide Canonical, AllSameLetters, Scan, Fields;
    CommandIsWords(t, c);
    assert c[0..] + [] == c;
    ResolvesFully(t, admin, [], c, []);
    ScanFolds(t, admin, [], c, Fields(line)) by { SameBack(Fields(line), c); }
    NothingLeft(Resolve(t, admin, Fields(line)).rest);
    SelectsExact(t, admin, line);
  }

  lemma CommandIsWords(t: Tables, c: seq<Word>)
    requires Canonical(t) && (c in t.commands || c in t.args)
    ensures c != [] && c in AllCommands(t)
  {
  }

  lemma SameBack(ws: seq<Word>, vs: seq<Word>)
    requires AllSameLetters(ws, vs)
    ensures AllSameLetters(vs, ws)
  {
    forall i | 0 <= i < |vs| ensures SameLetters(vs[i], ws[i]) { assert SameLetters(ws[i], vs[i]); }
  }

  lemma NothingLeft(rest: seq<Word>)
    ensures AllSameLetters([], rest) ==> rest == []
  {
  }

  /** And a visible argument-taking command runs with the words typed after it, in their own case. */
  lemma RunsTypedWithArg(t: Tables, admin: bool, line: string, c: seq<Word>, typed: seq<Word>, arg: seq<Word>)
    requires Canonical(t) && ArgsOrdered(t) && c in t.args && Sees(t, admin, c) && Unbroken(t, c)
    requires AllSameLetters(typed, c) && Fields(line) == typed + arg && arg != []
    ensures DispatchOf(t, admin, line) == RunsWithArg(c, Join(arg))
  {
    hide Canonical, ArgsOrdered, AllSameLetters, Scan, Fields, Join;
    CommandIsWords(t, c);
    assert c[0..] + arg == c + arg;
    ResolvesFully(t, admin, [], c, arg);
    SameWords(typed, c, arg);
    SameBack(typed + arg, c + arg);
    ScanFolds(t, admin, [], c + arg, typed + arg);
    ScanCompletes(t, admin, [], typed + arg);
    RestIs(typed + arg, Resolve(t, admin, typed + arg), |c|, arg);
    SelectsArg(t, admin, line);
  }

  lemma RestIs(tokens: seq<Word>, r: Resolution, n: nat, arg: seq<Word>)
    requires r.Resolved? && |r.words| == n <= |tokens| && r.rest == tokens[n..]
    requires |tokens| == n + |arg| && forall i :: 0 <= i < |arg| ==> tokens[n + i] == arg[i]
    ensures r.rest == arg
  {
  }

  /** A line is asked about exactly when its words are ambiguous. */
  lemma AsksWhenTorn(t: Tables, admin: bool, line: string)
    ensures var r := Resolve(t, admin, Fields(line));
            DispatchOf(t, admin, line).Asks? <==> r.Ambiguous?
    ensures var r := Resolve(t, admin, Fields(line));
            r.Ambiguous? ==> DispatchOf(t, admin, line) == Asks(r.typed, r.words, r.choices)
  {
    hide Scan, Fields, FirstArg, IsKey, Trim;
  }
}
