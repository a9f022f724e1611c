/**
  The tables that internal/lobby/commands.go ships, and that they meet what the
  resolver and the dispatcher ask of them.
 */
module ShippedTables {
  import opened Words
  import opened Abbreviation
  import opened Dispatch

  const ARGS: seq<seq<Word>> := [
    ["HELP"], ["SHOW", "USER"], ["FINGER"], ["PHONE"], ["DIAL"],
    ["APPROVE"], ["DENY"], ["DELETE", "USER"], ["CREATE", "USER"], ["UNLOCK"],
    ["RESET", "PASSWORD"], ["EXPIRE", "PASSWORD"], ["KICK"], ["BAN"], ["UNBAN"], ["INVITE", "CREATE"]]

  const USER_COMMANDS: seq<seq<Word>> := [
    ["HELP"], ["LOGOUT"], ["TIME"], ["SHOW", "TIME"], ["WHO"], ["SHOW", "USERS"], ["SHOW"], ["ANSWER"], ["REJECT"],
    ["FINGER"], ["SHOW", "USER"], ["PHONE"], ["DIAL"], ["SET", "PLAN"], ["SET", "PLAN", "CLEAR"], ["SET", "PASSWORD"]]

  /** INVITE, and then one key for each topic that HELP shows to admins. */
  const ADMIN_COMMANDS: seq<seq<Word>> := [
    ["INVITE"], ["LIST", "PENDING"], ["APPROVE"], ["DENY"], ["LIST", "USERS"], ["DELETE", "USER"], ["CREATE", "USER"],
    ["KICK"], ["BAN"], ["UNBAN"], ["UNLOCK"], ["RESET", "PASSWORD"], ["EXPIRE", "PASSWORD"], ["INVITE", "CREATE"],
    ["LIST", "INVITES"], ["PURGE", "PENDING"]]

  const ADMIN_TOPICS: seq<seq<Word>> := [
    ["LIST", "PENDING"], ["APPROVE", "<USERNAME>"], ["DENY", "<USERNAME>"], ["LIST", "USERS"],
    ["DELETE", "USER", "<USERNAME>"], ["CREATE", "USER", "<USERNAME>", "[ROLE]"], ["KICK", "<USERNAME>"],
    ["BAN", "<USERNAME>", "<DURATION>"], ["UNBAN", "<USERNAME>"], ["UNLOCK", "<USERNAME>"],
    ["RESET", "PASSWORD", "<USERNAME>"], ["EXPIRE", "PASSWORD", "<USERNAME>"], ["INVITE", "CREATE"],
    ["LIST", "INVITES"], ["PURGE", "PENDING"]]

  function Keys(cs: seq<seq<Word>>): set<seq<Word>> {
    set c | c in cs
  }

  const SHIPPED := Tables(Keys(USER_COMMANDS) + Keys(ADMIN_COMMANDS), ARGS, Keys(ADMIN_COMMANDS))

  // ---- What HELP's table says is for admins ---------------------------------------------

  /** adminTopicVerb: the words before the first placeholder. */
  function Verb(topic: seq<Word>): (v: seq<Word>)
    ensures v <= topic && (forall i :: 0 <= i < |v| ==> !Placeholder(v[i]))
    ensures |v| < |topic| ==> Placeholder(topic[|v|])
  {
    if topic == [] || Placeholder(topic[0]) then [] else [topic[0]] + Verb(topic[1..])
  }

  predicate Placeholder(w: Word) {
    w != [] && (w[0] == '<' || w[0] == '[')
  }

  lemma {:induction false} VerbOf(topic: seq<Word>, n: nat)
    requires n <= |topic| && (forall i :: 0 <= i < n ==> !Placeholder(topic[i])) && (n < |topic| ==> Placeholder(topic[n]))
    ensures Verb(topic) == topic[..n]
  {
    if n > 0 {
      VerbOf(topic[1..], n - 1);
      assert topic[..n] == [topic[0]] + topic[1..][..n - 1];
    }
  }

  /** buildAdminCommandKeys: the keys are INVITE and the verb of each admin topic. */
  lemma AdminKeysAreVerbs()
    ensures |ADMIN_COMMANDS| == 1 + |ADMIN_TOPICS|
    ensures forall i :: 0 <= i < |ADMIN_TOPICS| ==> ADMIN_COMMANDS[i + 1] == Verb(ADMIN_TOPICS[i])
  {
    forall i | 0 <= i < |ADMIN_TOPICS| ensures ADMIN_COMMANDS[i + 1] == Verb(ADMIN_TOPICS[i]) {
      TopicShape(i);
      VerbOf(ADMIN_TOPICS[i], |ADMIN_COMMANDS[i + 1]|);
    }
  }

  lemma TopicShape(i: nat)
    requires i < |ADMIN_TOPICS|
    ensures i + 1 < |ADMIN_COMMANDS| && ADMIN_COMMANDS[i + 1] <= ADMIN_TOPICS[i]
    ensures forall j :: 0 <= j < |ADMIN_COMMANDS[i + 1]| ==> !Placeholder(ADMIN_TOPICS[i][j])
    ensures |ADMIN_COMMANDS[i + 1]| < |ADMIN_TOPICS[i]| ==> Placeholder(ADMIN_TOPICS[i][|ADMIN_COMMANDS[i + 1]|])
  {
  }

  // ---- The tables are in order -------------------------------------------------------------

  predicate Caps(w: Word) {
    w != [] && forall i :: 0 <= i < |w| ==> 'A' <= w[i] <= 'Z'
  }

  predicate CapLine(c: seq<Word>) {
    c != [] && forall i :: 0 <= i < |c| ==> Caps(c[i])
  }

  lemma CapLineIsCanonical(c: seq<Word>)
    requires CapLine(c)
    ensures c != [] && AllWordy(c) && forall i :: 0 <= i < |c| ==> Shouted(c[i])
  {
    forall i | 0 <= i < |c| ensures Wordy(c[i]) && Shouted(c[i]) {
      assert Caps(c[i]);
    }
  }

  lemma UserCaps()
    ensures forall i :: 0 <= i < |USER_COMMANDS| ==> CapLine(USER_COMMANDS[i])
  {
  }

  lemma AdminCaps()
    ensures forall i :: 0 <= i < |ADMIN_COMMANDS| ==> CapLine(ADMIN_COMMANDS[i])
  {
  }

  lemma ArgCaps()
    ensures forall i :: 0 <= i < |ARGS| ==> CapLine(ARGS[i])
  {
  }

  predicate CapLines(cs: seq<seq<Word>>) {
    forall i :: 0 <= i < |cs| ==> CapLine(cs[i])
  }

  lemma CapTables(users: seq<seq<Word>>, admins: seq<seq<Word>>, args: seq<seq<Word>>)
    requires CapLines(users) && CapLines(admins) && CapLines(args)
    ensures Canonical(Tables(Keys(users) + Keys(admins), args, Keys(admins)))
  {
    hide CapLine;
    var t := Tables(Keys(users) + Keys(admins), args, Keys(admins));
    forall c | c in AllCommands(t) + t.adminKeys
      ensures c != [] && AllWordy(c) && forall i :: 0 <= i < |c| ==> Shouted(c[i])
    {
      assert CapLine(c);
      CapLineIsCanonical(c);
    }
  }

  lemma ShippedCanonical()
    ensures Canonical(SHIPPED)
  {
    UserCaps();
    AdminCaps();
    ArgCaps();
    CapTables(USER_COMMANDS, ADMIN_COMMANDS, ARGS);
  }

  /** Of the commands of several words that a user sees, each begins with S; no admin command does. */
  lemma FirstLetters()
    ensures forall i :: 0 <= i < |USER_COMMANDS| && |USER_COMMANDS[i]| > 1 ==> Initial(USER_COMMANDS[i], 'S')
    ensures forall i :: 0 <= i < |ADMIN_COMMANDS| ==> ADMIN_COMMANDS[i] != [] && !Initial(ADMIN_COMMANDS[i], 'S')
  {
  }

  predicate Initial(c: seq<Word>, letter: char) {
    c != [] && c[0] != [] && c[0][0] == letter
  }

  lemma Apart(users: seq<seq<Word>>, admins: seq<seq<Word>>, args: seq<seq<Word>>)
    requires forall i :: 0 <= i < |users| && |users[i]| > 1 ==> Initial(users[i], 'S')
    requires forall i :: 0 <= i < |admins| ==> admins[i] != [] && !Initial(admins[i], 'S')
    requires forall i :: 0 <= i < |args| ==> args[i] in users || args[i] in admins
    ensures AdminArgsApart(Tables(Keys(users) + Keys(admins), args, Keys(admins)))
  {
    var t := Tables(Keys(users) + Keys(admins), args, Keys(admins));
    forall a, u | a in t.args && a in t.adminKeys && u in AllCommands(t) && u !in t.adminKeys ensures !(a < u) {
      assert u in users && a in admins;
      assert !Initial(a, 'S') && (|u| > 1 ==> Initial(u, 'S'));
      assert a <= u ==> a[0] == u[0];
    }
    DisjointMeans(t);
  }

  /** Every argument-taking command is also in the exact table, for its usage line. */
  lemma ArgsAreCommands()
    ensures forall i :: 0 <= i < |ARGS| ==> ARGS[i] in USER_COMMANDS || ARGS[i] in ADMIN_COMMANDS
  {
  }

  /** So what a user types resolves as if the admin commands did not exist. */
  lemma ShippedRolesApart()
    ensures forall tokens :: Resolve(SHIPPED, false, tokens) == Resolve(UserTables(SHIPPED), false, tokens)
  {
    hide Resolve, UserTables;
    FirstLetters();
    ArgsAreCommands();
    Apart(USER_COMMANDS, ADMIN_COMMANDS, ARGS);
    ShippedCanonical();
    RoleIndependence(SHIPPED);
  }

  /** The first letter and the third tell the first word of each two-word command from each one-word command. */
  predicate Longer(w: Word) {
    |w| > 2 && (w[0], w[2]) in {('S', 'O'), ('D', 'L'), ('C', 'E'), ('R', 'S'), ('E', 'P'), ('I', 'V')}
  }

  lemma Shapes()
    ensures forall i :: 0 <= i < |ARGS| ==> |ARGS[i]| in {1, 2} && (Longer(ARGS[i][0]) <==> |ARGS[i]| == 2)
  {
  }

  lemma NoneBegins(args: seq<seq<Word>>)
    requires forall i :: 0 <= i < |args| ==> |args[i]| in {1, 2} && (Longer(args[i][0]) <==> |args[i]| == 2)
    ensures forall a, b :: a in args && b in args ==> !(a < b)
  {
    forall a, b | a in args && b in args ensures !(a < b) {
      assert a <= b ==> a[0] == b[0];
    }
  }

  /** And no argument-taking command begins another, so what the string match selects is what the resolver's words say. */
  lemma ShippedArgsOrdered()
    ensures ArgsOrdered(SHIPPED)
  {
    Shapes();
    NoneBegins(ARGS);
    ApartIsOrdered(SHIPPED);
  }
}
