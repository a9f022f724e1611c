/**
  internal/lobby/abbrev.go: the command trie, built one command at a time in any
  order and marked bottom-up with what a non-admin may see, and the resolver that
  walks it. The walk finds exactly what the flat scan of the tables finds.
 */
module AbbrevTrie {
  import opened Words
  import opened Abbreviation
  import opened Ordering

  datatype Node = Node(children: map<Word, Node>, isCommand: bool, canonical: seq<Word>, takesArg: bool, userVisible: bool)

  const EMPTY_NODE := Node(map[], false, [], false, false)

  datatype Entry = Entry(words: seq<Word>, takesArg: bool)

  // ---- Building --------------------------------------------------------------------------

  /** Walk down from `n` along `rest`, making nodes as needed, and mark the last one with the command. */
  function Insert(n: Node, rest: seq<Word>, e: Entry): Node
    decreases rest
  {
    if rest == [] then n.(isCommand := true, canonical := e.words, takesArg := n.takesArg || e.takesArg)
    else
      var child := if rest[0] in n.children then n.children[rest[0]] else EMPTY_NODE;
      n.(children := n.children[rest[0] := Insert(child, rest[1..], e)])
  }

  /** The node at `p` holds what the entries say of the commands that begin with `p`. */
  ghost predicate Represents(n: Node, es: set<Entry>, p: seq<Word>)
    decreases n
  {
    Here(n, es, p) && forall w :: w in n.children ==> Represents(n.children[w], es, p + [w])
  }

  ghost predicate Here(n: Node, es: set<Entry>, p: seq<Word>) {
    && (forall w :: w in n.children <==> exists e :: e in es && p + [w] <= e.words)
    && (n.isCommand <==> exists e :: e in es && e.words == p)
    && (n.isCommand ==> n.canonical == p)
    && (n.takesArg <==> Entry(p, true) in es)
  }

  lemma EmptyRepresents(es: set<Entry>, p: seq<Word>)
    requires forall e :: e in es ==> !(p <= e.words)
    ensures Represents(EMPTY_NODE, es, p)
  {
  }

  /** An entry elsewhere changes nothing here. */
  lemma {:induction false} Elsewhere(n: Node, es: set<Entry>, p: seq<Word>, e: Entry)
    requires Represents(n, es, p) && !(p <= e.words)
    ensures Represents(n, es + {e}, p)
    decreases n
  {
    forall w | w in n.children ensures Represents(n.children[w], es + {e}, p + [w]) {
      Elsewhere(n.children[w], es, p + [w], e);
    }
  }

  lemma HereEnd(n: Node, es: set<Entry>, p: seq<Word>, e: Entry)
    requires Here(n, es, p) && e.words == p
    ensures Here(Insert(n, [], e), es + {e}, p)
  {
  }

  lemma HereBetween(n: Node, es: set<Entry>, p: seq<Word>, w: Word, e: Entry, child: Node)
    requires Here(n, es, p) && p + [w] <= e.words
    ensures Here(n.(children := n.children[w := child]), es + {e}, p)
  {
    assert e.words[|p|] == w;
    forall v ensures v in n.children[w := child] <==> exists x :: x in es + {e} && p + [v] <= x.words {
      if v == w { assert e in es + {e}; }
      if x :| x in es && p + [v] <= x.words { assert x in es + {e}; }
    }
    assert e.words != p;
  }

  lemma ChildrenElsewhere(n: Node, es: set<Entry>, p: seq<Word>, e: Entry, w: Word)
    requires Represents(n, es, p) && w in n.children && !(p + [w] <= e.words)
    ensures Represents(n.children[w], es + {e}, p + [w])
  {
    Elsewhere(n.children[w], es, p + [w], e);
  }

  lemma {:induction false} InsertRepresents(n: Node, es: set<Entry>, p: seq<Word>, rest: seq<Word>, e: Entry)
    requires Represents(n, es, p) && e.words == p + rest
    ensures Represents(Insert(n, rest, e), es + {e}, p)
    decreases rest
  {
    hide Here;
    var n' := Insert(n, rest, e);
    if rest == [] {
      assert e.words == p;
      HereEnd(n, es, p, e);
      forall w | w in n'.children ensures Represents(n'.children[w], es + {e}, p + [w]) {
        ChildrenElsewhere(n, es, p, e, w);
      }
    } else {
      var child := if rest[0] in n.children then n.children[rest[0]] else EMPTY_NODE;
      assert p + rest == (p + [rest[0]]) + rest[1..];
      ChildOrEmpty(n, es, p, rest[0]);
      InsertRepresents(child, es, p + [rest[0]], rest[1..], e);
      HereBetween(n, es, p, rest[0], e, Insert(child, rest[1..], e));
      forall w | w in n'.children ensures Represents(n'.children[w], es + {e}, p + [w]) {
        if w != rest[0] {
          assert e.words[|p|] == rest[0] && (p + [w])[|p|] == w;
          ChildrenElsewhere(n, es, p, e, w);
        }
      }
    }
  }

  lemma ChildOrEmpty(n: Node, es: set<Entry>, p: seq<Word>, w: Word)
    requires Represents(n, es, p)
    ensures Represents(if w in n.children then n.children[w] else EMPTY_NODE, es, p + [w])
  {
    if w !in n.children { EmptyRepresents(es, p + [w]); }
  }

  /** computeUserVisible: mark a subtree from its leaves up. */
  function Mark(n: Node, adminKeys: set<seq<Word>>): Node
    decreases n
  {
    var children := map w | w in n.children :: Mark(n.children[w], adminKeys);
    n.(children := children,
       userVisible := (n.isCommand && n.canonical !in adminKeys) || exists w :: w in children && children[w].userVisible)
  }

  ghost predicate Marked(n: Node, es: set<Entry>, adminKeys: set<seq<Word>>, p: seq<Word>)
    decreases n
  {
    && (n.userVisible <==> exists e :: e in es && p <= e.words && e.words !in adminKeys)
    && (forall w :: w in n.children ==> Marked(n.children[w], es, adminKeys, p + [w]))
  }

  lemma {:induction false} MarkMarks(n: Node, es: set<Entry>, adminKeys: set<seq<Word>>, p: seq<Word>)
    requires Represents(n, es, p)
    ensures Represents(Mark(n, adminKeys), es, p) && Marked(Mark(n, adminKeys), es, adminKeys, p)
    decreases n
  {
    hide Here;
    var n' := Mark(n, adminKeys);
    forall w | w in n.children
      ensures Represents(n'.children[w], es, p + [w]) && Marked(n'.children[w], es, adminKeys, p + [w])
    {
      MarkMarks(n.children[w], es, adminKeys, p + [w]);
    }
    MarkHere(n, n', es, adminKeys, p);
  }

  lemma MarkHere(n: Node, n': Node, es: set<Entry>, adminKeys: set<seq<Word>>, p: seq<Word>)
    requires Here(n, es, p) && n' == n.(children := n'.children, userVisible := n'.userVisible)
    requires n'.children.Keys == n.children.Keys
    requires n'.userVisible <==> (n.isCommand && n.canonical !in adminKeys) || exists w :: w in n'.children && n'.children[w].userVisible
    requires forall w :: w in n'.children ==> Marked(n'.children[w], es, adminKeys, p + [w])
    ensures Here(n', es, p) && (n'.userVisible <==> exists e :: e in es && p <= e.words && e.words !in adminKeys)
  {
    if e :| e in es && p <= e.words && e.words !in adminKeys {
      SeenFrom(n', es, adminKeys, p, e);
    }
    if w :| w in n'.children && n'.children[w].userVisible {
      var e :| e in es && p + [w] <= e.words && e.words !in adminKeys;
      assert p <= e.words;
    }
  }

  lemma SeenFrom(n: Node, es: set<Entry>, adminKeys: set<seq<Word>>, p: seq<Word>, e: Entry)
    requires Here(n, es, p) && e in es && p <= e.words && e.words !in adminKeys
    requires forall w :: w in n.children ==> Marked(n.children[w], es, adminKeys, p + [w])
    ensures (n.isCommand && n.canonical !in adminKeys) || exists w :: w in n.children && n.children[w].userVisible
  {
    if e.words != p {
      var w := e.words[|p|];
      assert p + [w] <= e.words;
      assert n.children[w].userVisible;
    }
  }

  // ---- The tables' trie --------------------------------------------------------------------

  function EntriesOf(t: Tables): set<Entry> {
    (set c | c in t.commands :: Entry(c, false)) + (set a | a in t.args :: Entry(a, true))
  }

  /** The node is the one that walking the words `p` from the root of the tables' trie reaches. */
  ghost predicate At(n: Node, t: Tables, p: seq<Word>) {
    Represents(n, EntriesOf(t), p) && Marked(n, EntriesOf(t), t.adminKeys, p)
  }

  lemma EntriesAre(t: Tables)
    ensures forall c :: c in AllCommands(t) <==> exists e :: e in EntriesOf(t) && e.words == c
    ensures forall c :: Entry(c, true) in EntriesOf(t) <==> TakesArg(t, c)
  {
    forall c ensures c in AllCommands(t) <==> exists e :: e in EntriesOf(t) && e.words == c {
      if c in t.commands { assert Entry(c, false) in EntriesOf(t); }
      if c in t.args { assert Entry(c, true) in EntriesOf(t); }
    }
  }

  lemma ChildAt(n: Node, t: Tables, p: seq<Word>, w: Word)
    requires At(n, t, p) && w in n.children
    ensures At(n.children[w], t, p + [w]) && (n.children[w].takesArg <==> TakesArg(t, p + [w]))
    ensures n.children[w].userVisible <==> exists e :: e in EntriesOf(t) && p + [w] <= e.words && e.words !in t.adminKeys
  {
    EntriesAre(t);
    assert Represents(n.children[w], EntriesOf(t), p + [w]);
    assert Marked(n.children[w], EntriesOf(t), t.adminKeys, p + [w]);
  }

  lemma NextIsEntry(t: Tables, admin: bool, p: seq<Word>, w: Word)
    ensures w in NextWords(t, admin, p) <==> exists e :: e in EntriesOf(t) && p + [w] <= e.words && Sees(t, admin, e.words)
  {
    hide EntriesOf, Sees, AllCommands;
    EntriesAre(t);
    if c :| c in AllCommands(t) && p < c && Sees(t, admin, c) && c[|p|] == w {
      var e :| e in EntriesOf(t) && e.words == c;
      assert p + [w] <= e.words;
    }
    if e :| e in EntriesOf(t) && p + [w] <= e.words && Sees(t, admin, e.words) {
      assert p < e.words && e.words[|p|] == w;
    }
  }

  lemma ChildSeen(n: Node, t: Tables, admin: bool, p: seq<Word>, w: Word)
    requires At(n, t, p)
    ensures w in NextWords(t, admin, p) <==> w in n.children && (admin || n.children[w].userVisible)
  {
    hide At, NextWords, EntriesOf;
    NextIsEntry(t, admin, p, w);
    AtHere(n, t, p);
  }

  lemma AtHere(n: Node, t: Tables, p: seq<Word>)
    requires At(n, t, p)
    ensures Here(n, EntriesOf(t), p)
    ensures forall w :: w in n.children ==> (n.children[w].userVisible <==>
              exists e :: e in EntriesOf(t) && p + [w] <= e.words && e.words !in t.adminKeys)
  {
    forall w | w in n.children
      ensures n.children[w].userVisible <==> exists e :: e in EntriesOf(t) && p + [w] <= e.words && e.words !in t.adminKeys
    {
      ChildAt(n, t, p, w);
    }
  }

  /** The visible children of a node are the words that can follow; below each is the node one word further on. */
  lemma ChildrenAreNext(n: Node, t: Tables, admin: bool, p: seq<Word>)
    requires At(n, t, p)
    ensures forall w :: w in NextWords(t, admin, p) <==> w in n.children && (admin || n.children[w].userVisible)
    ensures forall w :: w in n.children ==> At(n.children[w], t, p + [w]) && (n.children[w].takesArg <==> TakesArg(t, p + [w]))
  {
    hide At, NextWords;
    forall w ensures w in NextWords(t, admin, p) <==> w in n.children && (admin || n.children[w].userVisible) {
      ChildSeen(n, t, admin, p, w);
    }
    forall w | w in n.children ensures At(n.children[w], t, p + [w]) && (n.children[w].takesArg <==> TakesArg(t, p + [w])) {
      ChildAt(n, t, p, w);
    }
  }

  /** abbrevTrie: every key of the two tables, in whatever order, then the marks. */
  method BuildTrie(t: Tables) returns (root: Node)
    ensures At(root, t, [])
  {
    root := EMPTY_NODE;
    ghost var es: set<Entry> := {};
    EmptyRepresents(es, []);
    var todo := t.commands;
    while todo != {}
      invariant todo <= t.commands && es == set c | c in t.commands && c !in todo :: Entry(c, false)
      invariant Represents(root, es, [])
      decreases |todo|
    {
      var c :| c in todo;
      todo := todo - {c};
      root := Add(root, es, Entry(c, false));
      es := es + {Entry(c, false)};
    }
    for i := 0 to |t.args|
      invariant es == (set c | c in t.commands :: Entry(c, false)) + (set a | a in t.args[..i] :: Entry(a, true))
      invariant Represents(root, es, [])
    {
      root := Add(root, es, Entry(t.args[i], true));
      es := es + {Entry(t.args[i], true)};
      assert t.args[..i + 1] == t.args[..i] + [t.args[i]];
    }
    assert es == EntriesOf(t);
    MarkMarks(root, es, t.adminKeys, []);
    root := Mark(root, t.adminKeys);
  }

  method Add(root: Node, ghost es: set<Entry>, e: Entry) returns (root': Node)
    requires Represents(root, es, [])
    ensures Represents(root', es + {e}, [])
  {
    assert [] + e.words == e.words;
    InsertRepresents(root, es, [], e.words, e);
    root' := Insert(root, e.words, e);
  }

  // ---- The resolver ---------------------------------------------------------------------------

  function WordSet(ws: seq<Word>): set<Word> {
    set w | w in ws
  }

  /** The role-scoped continuations of a node, in the map's order, whatever that is. */
  method Candidates(n: Node, admin: bool) returns (cands: seq<Word>)
    ensures forall w :: w in cands <==> w in n.children && (admin || n.children[w].userVisible)
  {
    cands := [];
    var todo := n.children.Keys;
    while todo != {}
      invariant todo <= n.children.Keys
      invariant forall w :: w in cands <==> w in n.children && w !in todo && (admin || n.children[w].userVisible)
      decreases |todo|
    {
      var w :| w in todo;
      todo := todo - {w};
      if admin || n.children[w].userVisible { cands := cands + [w]; }
    }
  }

  predicate SortedWords(ws: seq<Word>) {
    forall i, j :: 0 <= i < j < |ws| ==> Less(ws[i], ws[j])
  }

  function InsertWord(ws: seq<Word>, w: Word): (r: seq<Word>)
    requires SortedWords(ws)
    ensures SortedWords(r) && forall v :: v in r <==> v in ws || v == w
  {
    if ws == [] then [w]
    else if ws[0] == w then ws
    else if Less(w, ws[0]) then
      FirstIsLeast(ws, w);
      [w] + ws
    else
      LessTotal(w, ws[0]);
      var rest := InsertWord(ws[1..], w);
      assert forall v :: v in rest ==> Less(ws[0], v);
      [ws[0]] + rest
  }

  lemma FirstIsLeast(ws: seq<Word>, w: Word)
    requires SortedWords(ws) && ws != [] && Less(w, ws[0])
    ensures forall v :: v in ws ==> Less(w, v)
  {
    forall v | v in ws ensures Less(w, v) {
      if v != ws[0] { LessTransitive(w, ws[0], v); }
    }
  }

  /** The sorted list of a set is the only one, so the order in which the map was read leaves no trace. */
  lemma {:induction false} SortedIsUnique(a: seq<Word>, b: seq<Word>)
    requires SortedWords(a) && SortedWords(b) && WordSet(a) == WordSet(b)
    ensures a == b
    decreases a
  {
    HasFirst(a);
    HasFirst(b);
    if a != [] {
      HeadsMeet(a, b);
      TailSet(a);
      TailSet(b);
      SortedIsUnique(a[1..], b[1..]);
    }
  }

  lemma HasFirst(a: seq<Word>)
    ensures a == [] <==> WordSet(a) == {}
    ensures a != [] ==> a[0] in WordSet(a)
  {
    if a != [] { assert a[0] in WordSet(a); }
  }

  lemma HeadsMeet(a: seq<Word>, b: seq<Word>)
    requires SortedWords(a) && SortedWords(b) && a != [] && b != [] && a[0] in b && b[0] in a
    ensures a[0] == b[0]
  {
    LessTotal(a[0], b[0]);
  }

  lemma TailSet(a: seq<Word>)
    requires SortedWords(a) && a != []
    ensures WordSet(a[1..]) == WordSet(a) - {a[0]}
  {
    forall i | 1 <= i < |a| ensures a[i] != a[0] {
      LessTotal(a[0], a[i]);
    }
    assert a == [a[0]] + a[1..];
  }

  /** The completions of a typed word among the candidates, sorted. */
  method CompletionsOf(cands: seq<Word>, up: Word) returns (pfx: seq<Word>)
    ensures SortedWords(pfx) && forall w :: w in pfx <==> w in cands && up <= w
  {
    pfx := [];
    for i := 0 to |cands|
      invariant SortedWords(pfx) && forall w :: w in pfx <==> w in cands[..i] && up <= w
    {
      assert cands[..i + 1] == cands[..i] + [cands[i]];
      if up <= cands[i] { pfx := InsertWord(pfx, cands[i]); }
    }
    assert cands[..|cands|] == cands;
  }

  /** Resolve one typed word against the candidates; `names` lists an ambiguity in order. */
  method MatchOne(cands: seq<Word>, typed: Word) returns (m: Match, names: seq<Word>)
    ensures m == MatchWord(WordSet(cands), typed)
    ensures m.Several? ==> SortedWords(names) && WordSet(names) == m.choices
  {
    var up := Upper(typed);
    names := [];
    if up in cands { return Unique(up), names; }
    var pfx := CompletionsOf(cands, up);
    ghost var some := Completions(WordSet(cands), up);
    assert WordSet(pfx) == some;
    if |pfx| == 0 {
      assert some == {};
      return NoMatch, names;
    }
    assert pfx[0] in some;
    if |pfx| == 1 {
      assert some == {pfx[0]};
      assert forall c :: some == {c} ==> pfx[0] in {c};
      return Unique(pfx[0]), names;
    }
    TwoOrMore(pfx);
    return Several(WordSet(pfx)), pfx;
  }

  lemma TwoOrMore(pfx: seq<Word>)
    requires SortedWords(pfx) && |pfx| >= 2
    ensures WordSet(pfx) != {} && forall c :: WordSet(pfx) != {c}
  {
    LessTotal(pfx[0], pfx[1]);
    assert pfx[0] in WordSet(pfx) && pfx[1] in WordSet(pfx) && pfx[0] != pfx[1];
  }

  method ResolveAbbrev(root: Node, admin: bool, tokens: seq<Word>, ghost t: Tables) returns (r: Resolution, names: seq<Word>)
    requires At(root, t, [])
    ensures r == Resolve(t, admin, tokens)
    ensures r.Ambiguous? ==> SortedWords(names) && WordSet(names) == r.choices
  {
    var node, resolved, i := root, [], 0;
    names := [];
    while i < |tokens|
      invariant i <= |tokens| && At(node, t, resolved)
      invariant Resolve(t, admin, tokens) == Scan(t, admin, resolved, tokens[i..])
    {
      var cands := Candidates(node, admin);
      ChildrenAreNext(node, t, admin, resolved);
      assert WordSet(cands) == NextWords(t, admin, resolved);
      assert tokens[i..][0] == tokens[i] && tokens[i..][1..] == tokens[i + 1..];
      var m: Match;
      m, names := MatchOne(cands, tokens[i]);
      MatchedIsChoice(WordSet(cands), tokens[i]);
      match m
      case NoMatch => return Resolved(resolved, tokens[i..]), names;
      case Several(choices) => return Ambiguous(resolved, tokens[i], choices), names;
      case Unique(w) =>
        resolved := resolved + [w];
        node := node.children[w];
        i := i + 1;
        if node.takesArg { return Resolved(resolved, tokens[i..]), names; }
    }
    return Resolved(resolved, []), names;
  }
}
