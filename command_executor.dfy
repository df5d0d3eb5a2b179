/**
 * The Spigot "/otg" command executor: a fixed table of ten sub-commands kept
 * in a TreeMap (so its keys come out in natural string order), routing of a
 * command line to the sub-command named by its first word, and tab
 * completion.
 */
module CommandExecutor {
  import opened Wrappers
  import JavaLang

  /** The ten sub-commands; what each one does is outside this model. */
  datatype BaseCommand = Data | Edit | Export | Flush | Spawn | Structure | MapCommand | Help | Biome | Locate

  /** String.compareTo(a, b) < 0: lexicographic order on character codes. */
  predicate Less(a: string, b: string)
    decreases |a|
  {
    if a == [] then b != []
    else if b == [] then false
    else if a[0] != b[0] then a[0] < b[0]
    else Less(a[1..], b[1..])
  }

  lemma {:induction false} LessIrreflexive(a: string)
    ensures !Less(a, a)
  {
    if a != [] { LessIrreflexive(a[1..]); }
  }

  lemma {:induction false} LessTransitive(a: string, b: string, c: string)
    requires Less(a, b) && Less(b, c)
    ensures Less(a, c)
    decreases |a|
  {
    if a != [] && b != [] && c != [] && a[0] == b[0] && b[0] == c[0] {
      LessTransitive(a[1..], b[1..], c[1..]);
    }
  }

  lemma {:induction false} LessTotal(a: string, b: string)
    requires a != b
    ensures Less(a, b) || Less(b, a)
    decreases |a|
  {
    if a != [] && b != [] && a[0] == b[0] {
      LessTotal(a[1..], b[1..]);
    }
  }

  lemma LessAsymmetric(a: string, b: string)
    requires Less(a, b)
    ensures !Less(b, a)
  {
    if Less(b, a) {
      LessTransitive(a, b, a);
      LessIrreflexive(a);
    }
  }

  /** Keys in strictly increasing natural order, as a TreeMap iterates them. */
  predicate StrictlySorted(s: seq<string>) {
    forall i, j :: 0 <= i < j < |s| ==> Less(s[i], s[j])
  }

  lemma SortedIsDistinct(s: seq<string>, i: nat, j: nat)
    requires StrictlySorted(s) && i < |s| && j < |s| && i != j
    ensures s[i] != s[j]
  {
    if i < j { if s[i] == s[j] { LessIrreflexive(s[i]); } }
    else { if s[i] == s[j] { LessIrreflexive(s[i]); } }
  }

  /** Two sorted key lists holding the same keys are the same list. */
  lemma {:induction false} SortedUnique(a: seq<string>, b: seq<string>)
    requires StrictlySorted(a) && StrictlySorted(b)
    requires forall x :: x in a <==> x in b
    ensures a == b
    decreases |a|
  {
    if a == [] && b != [] {
      MemberOfNonEmpty(b);
      assert false;
    } else if a != [] && b == [] {
      MemberOfNonEmpty(a);
      assert false;
    } else if a != [] && b != [] {
      // the least key of each list is the least key of the other
      if a[0] != b[0] {
        assert a[0] in b;
        var j :| 0 <= j < |b| && b[j] == a[0];
        assert b[0] in a;
        var i :| 0 <= i < |a| && a[i] == b[0];
        assert j > 0 && i > 0;
        assert Less(b[0], a[0]) && Less(a[0], b[0]);
        LessAsymmetric(b[0], a[0]);
      }
      forall x
        ensures x in a[1..] <==> x in b[1..]
      {
        if x in a[1..] {
          var i :| 1 <= i < |a| && a[i] == x;
          assert Less(a[0], x);
          if x == b[0] { LessIrreflexive(x); }
          assert x in b;
          var j :| 0 <= j < |b| && b[j] == x;
          assert j != 0;
          assert x == b[1..][j - 1];
        }
        if x in b[1..] {
          var j :| 1 <= j < |b| && b[j] == x;
          assert Less(b[0], x);
          if x == a[0] { LessIrreflexive(x); }
          assert x in a;
          var i :| 0 <= i < |a| && a[i] == x;
          assert i != 0;
          assert x == a[1..][i - 1];
        }
      }
      SortedUnique(a[1..], b[1..]);
    }
  }

  lemma MemberOfNonEmpty(s: seq<string>)
    requires s != []
    ensures s[0] in s
  {
  }

  /** TreeMap.get over the key-ordered entries. */
  function Lookup(names: seq<string>, commands: seq<BaseCommand>, key: string): (r: Option<BaseCommand>)
    requires |names| == |commands|
    ensures r.None? <==> key !in names
  {
    if names == [] then None
    else if names[0] == key then Some(commands[0])
    else Lookup(names[1..], commands[1..], key)
  }

  lemma {:induction false} LookupAt(names: seq<string>, commands: seq<BaseCommand>, i: nat)
    requires |names| == |commands| && StrictlySorted(names) && i < |names|
    ensures Lookup(names, commands, names[i]) == Some(commands[i])
  {
    if i > 0 {
      SortedIsDistinct(names, 0, i);
      LookupAt(names[1..], commands[1..], i - 1);
    }
  }

  /** Bukkit's startsWithIgnoreCase, on ASCII letters. */
  predicate StartsWithIgnoreCase(s: string, prefix: string) {
    |prefix| <= |s| && JavaLang.ToLower(s[..|prefix|]) == JavaLang.ToLower(prefix)
  }

  /** StringUtil.copyPartialMatches: the candidates that start with the token, in order. */
  function PartialMatches(token: string, candidates: seq<string>): seq<string>
  {
    if candidates == [] then []
    else if StartsWithIgnoreCase(candidates[0], token) then [candidates[0]] + PartialMatches(token, candidates[1..])
    else PartialMatches(token, candidates[1..])
  }

  /** The matches are exactly the candidates that start with the token, and they stay in order. */
  lemma {:induction false} PartialMatchesSpec(token: string, candidates: seq<string>)
    ensures forall x :: x in PartialMatches(token, candidates) <==> x in candidates && StartsWithIgnoreCase(x, token)
    ensures StrictlySorted(candidates) ==> StrictlySorted(PartialMatches(token, candidates))
  {
    if candidates != [] {
      var rest := candidates[1..];
      PartialMatchesSpec(token, rest);
      if StrictlySorted(candidates) {
        assert StrictlySorted(rest) by {
          forall i, j | 0 <= i < j < |rest|
            ensures Less(rest[i], rest[j])
          {
            assert rest[i] == candidates[i + 1] && rest[j] == candidates[j + 1];
          }
        }
        forall x | x in PartialMatches(token, rest)
          ensures Less(candidates[0], x)
        {
          var j :| 1 <= j < |candidates| && candidates[j] == x;
        }
      }
    }
  }

  /** The names of the ten sub-commands in natural order. */
  const SortedNames: seq<string> :=
    ["biome", "data", "edit", "export", "flush", "help", "locate", "map", "spawn", "structure"]

  lemma SortedNamesSorted()
    ensures StrictlySorted(SortedNames)
  {
    var s := SortedNames;
    assert Less(s[0], s[1]) && Less(s[1], s[2]) && Less(s[2], s[3]) && Less(s[3], s[4])
      && Less(s[4], s[5]) && Less(s[5], s[6]) && Less(s[6], s[7]) && Less(s[7], s[8])
      && Less(s[8], s[9]);
    forall i, j | 0 <= i < j < |s|
      ensures Less(s[i], s[j])
    {
      AdjacentLessChain(s, i, j);
    }
  }

  lemma {:induction false} AdjacentLessChain(s: seq<string>, i: nat, j: nat)
    requires i < j < |s|
    requires forall k :: 0 <= k < |s| - 1 ==> Less(s[k], s[k + 1])
    ensures Less(s[i], s[j])
    decreases j - i
  {
    if j > i + 1 {
      AdjacentLessChain(s, i, j - 1);
      LessTransitive(s[i], s[j - 1], s[j]);
    }
  }

  /** The command word and the arguments handed to it by onCommand. */
  function Route(strings: seq<string>): (r: (string, seq<string>))
    ensures strings == [] ==> r == ("help", [])
    ensures strings != [] ==> r.0 == JavaLang.ToLower(strings[0]) && r.1 == strings[1..]
  {
    var args := if |strings| >= 2 then strings[1..] else [];
    var cmd := if |strings| >= 1 then JavaLang.ToLower(strings[0]) else "help";
    (cmd, args)
  }

  lemma {:induction false} ReplaceAt(names: seq<string>, commands: seq<BaseCommand>, i: nat, c: BaseCommand, x: string)
    requires |names| == |commands| && StrictlySorted(names) && i < |names|
    ensures Lookup(names, commands[i := c], x) == if x == names[i] then Some(c) else Lookup(names, commands, x)
  {
    if i > 0 && names[0] != x {
      assert StrictlySorted(names[1..]) by {
        forall a, b | 0 <= a < b < |names| - 1 ensures Less(names[1..][a], names[1..][b]) {
          assert names[1..][a] == names[a + 1];
        }
      }
      assert commands[i := c][1..] == commands[1..][i - 1 := c];
      ReplaceAt(names[1..], commands[1..], i - 1, c, x);
    } else if i > 0 {
      SortedIsDistinct(names, 0, i);
    }
  }

  lemma {:induction false} InsertAt(names: seq<string>, commands: seq<BaseCommand>, i: nat, key: string, c: BaseCommand, x: string)
    requires |names| == |commands| && i <= |names| && key !in names
    ensures Lookup(names[..i] + [key] + names[i..], commands[..i] + [c] + commands[i..], x)
      == if x == key then Some(c) else Lookup(names, commands, x)
  {
    var n, m := names[..i] + [key] + names[i..], commands[..i] + [c] + commands[i..];
    if i == 0 {
      assert n == [key] + names && m == [c] + commands;
      assert n[1..] == names && m[1..] == commands;
    } else {
      assert n[0] == names[0] && m[0] == commands[0];
      assert n[1..] == names[1..][..i - 1] + [key] + names[1..][i - 1..];
      assert m[1..] == commands[1..][..i - 1] + [c] + commands[1..][i - 1..];
      if names[0] != x {
        InsertAt(names[1..], commands[1..], i - 1, key, c, x);
      }
    }
  }

  lemma InsertSorted(names: seq<string>, i: nat, key: string)
    requires StrictlySorted(names) && i <= |names|
    requires forall j :: 0 <= j < i ==> Less(names[j], key)
    requires forall j :: i <= j < |names| ==> Less(key, names[j])
    ensures StrictlySorted(names[..i] + [key] + names[i..])
  {
    var n := names[..i] + [key] + names[i..];
    forall a, b | 0 <= a < b < |n|
      ensures Less(n[a], n[b])
    {
      if a < i && b > i {
        assert n[a] == names[a] && n[b] == names[b - 1];
        LessTransitive(n[a], key, n[b]);
      } else if a == i {
        assert n[b] == names[b - 1];
      } else if a > i {
        assert n[a] == names[a - 1] && n[b] == names[b - 1];
      } else if b < i {
        assert n[a] == names[a] && n[b] == names[b];
      }
    }
  }

  class OtgCommandExecutor {
    /** The TreeMap commandMap as its entries in key order. */
    var names: seq<string>
    var commands: seq<BaseCommand>
    /** The map view of the same entries. */
    ghost var entries: map<string, BaseCommand>

    ghost predicate Valid()
      reads this
    {
      && |names| == |commands| && StrictlySorted(names)
      && (forall x :: x in entries <==> x in names)
      && (forall x :: x in entries ==> Lookup(names, commands, x) == Some(entries[x]))
    }

    function Get(key: string): (r: Option<BaseCommand>)
      reads this
      requires Valid()
      ensures r.None? <==> key !in entries
      ensures r.Some? ==> r.value == entries[key]
    {
      Lookup(names, commands, key)
    }

    /** TreeMap.put: inserts a new key at its place in the order, or replaces the value of an existing one. */
    method Put(key: string, command: BaseCommand)
      requires Valid()
      modifies this
      ensures Valid()
      ensures entries == old(entries)[key := command]
    {
      var i := 0;
      while i < |names| && Less(names[i], key)
        invariant 0 <= i <= |names|
        invariant forall j :: 0 <= j < i ==> Less(names[j], key)
      {
        i := i + 1;
      }
      if i < |names| && names[i] == key {
        forall x { ReplaceAt(names, commands, i, command, x); }
        commands := commands[i := command];
      } else {
        forall j | i <= j < |names|
          ensures Less(key, names[j])
        {
          LessTotal(names[i], key);
          if j > i { LessTransitive(key, names[i], names[j]); }
        }
        assert key !in names by {
          forall j | 0 <= j < |names|
            ensures names[j] != key
          {
            if names[j] == key { LessIrreflexive(key); }
          }
        }
        InsertSorted(names, i, key);
        forall x { InsertAt(names, commands, i, key, command, x); }
        names, commands := names[..i] + [key] + names[i..], commands[..i] + [command] + commands[i..];
      }
      entries := entries[key := command];
    }

    /** The constructor registers the ten sub-commands. */
    constructor ()
      ensures Valid()
      ensures names == SortedNames
      ensures entries == map["data" := Data, "edit" := Edit, "export" := Export, "flush" := Flush,
        "spawn" := Spawn, "structure" := Structure, "map" := MapCommand, "help" := Help,
        "biome" := Biome, "locate" := Locate]
    {
      names, commands, entries := [], [], map[];
      new;
      Put("data", Data);
      Put("edit", Edit);
      Put("export", Export);
      Put("flush", Flush);
      Put("spawn", Spawn);
      Put("structure", Structure);
      Put("map", MapCommand);
      Put("help", Help);
      Put("biome", Biome);
      Put("locate", Locate);
      SortedNamesSorted();
      SortedUnique(names, SortedNames);
    }

    /**
     * onCommand: a known sub-command returns what its execute returns for the
     * remaining words; an unknown one executes nothing and returns true.
     */
    function OnCommand(strings: seq<string>, execute: (BaseCommand, seq<string>) -> bool): (r: bool)
      reads this
      requires Valid()
      ensures var (cmd, args) := Route(strings);
        (cmd in entries ==> r == execute(entries[cmd], args)) && (cmd !in entries ==> r)
    {
      var (cmd, args) := Route(strings);
      var command := Get(cmd);
      if command.Some? then execute(command.value, args) else true
    }

    /**
     * onTabComplete: every name for no argument, the names starting with the
     * one argument, and otherwise the completion of the sub-command named by
     * the first argument (not lower-cased), given all the arguments.
     */
    function OnTabComplete(args: seq<string>, complete: (BaseCommand, seq<string>) -> seq<string>): (r: seq<string>)
      reads this
      requires Valid()
      ensures args == [] ==> r == names
      ensures |args| == 1 ==> StrictlySorted(r) && forall x :: x in r <==> x in names && StartsWithIgnoreCase(x, args[0])
      ensures |args| >= 2 && args[0] in entries ==> r == complete(entries[args[0]], args)
      ensures |args| >= 2 && args[0] !in entries ==> r == []
    {
      if |args| == 0 then names
      else if |args| == 1 then PartialMatchesSpec(args[0], names); PartialMatches(args[0], names)
      else
        var command := Get(args[0]);
        if command.Some? then complete(command.value, args) else []
    }
  }

  /** The table the constructor builds. */
  ghost predicate Registered(e: OtgCommandExecutor)
    reads e
  {
    e.Valid() && e.names == SortedNames && e.entries == map["data" := Data, "edit" := Edit,
      "export" := Export, "flush" := Flush, "spawn" := Spawn, "structure" := Structure,
      "map" := MapCommand, "help" := Help, "biome" := Biome, "locate" := Locate]
  }

  /** With no command word the executor runs help with no arguments. */
  lemma EmptyLineRunsHelp(e: OtgCommandExecutor, execute: (BaseCommand, seq<string>) -> bool)
    requires Registered(e)
    ensures e.OnCommand([], execute) == execute(Help, [])
  {
  }

  /** The first word is matched after lower-casing: "HELP x" runs help with ["x"]. */
  lemma UpperCaseWordIsLowered(e: OtgCommandExecutor, execute: (BaseCommand, seq<string>) -> bool)
    requires Registered(e)
    ensures e.OnCommand(["HELP", "x"], execute) == execute(Help, ["x"])
  {
    assert JavaLang.ToLower("HELP") == "help";
  }

  /** An unknown word runs nothing and reports success. */
  lemma UnknownWordSucceeds(e: OtgCommandExecutor, execute: (BaseCommand, seq<string>) -> bool)
    requires e.Valid() && "nope" !in e.entries
    ensures e.OnCommand(["nope"], execute)
  {
    assert JavaLang.ToLower("nope") == "nope";
  }

  /** Completing "e" over the registered names offers edit and export, in that order. */
  lemma CompleteE()
    ensures PartialMatches("e", SortedNames) == ["edit", "export"]
  {
    var s := SortedNames;
    FirstLetterMatch(s[0], 'e');
    FirstLetterMatch(s[1], 'e');
    FirstLetterMatch(s[2], 'e');
    FirstLetterMatch(s[3], 'e');
    FirstLetterMatch(s[4], 'e');
    FirstLetterMatch(s[5], 'e');
    FirstLetterMatch(s[6], 'e');
    FirstLetterMatch(s[7], 'e');
    FirstLetterMatch(s[8], 'e');
    FirstLetterMatch(s[9], 'e');
    assert PartialMatches("e", s[9..]) == [] by { assert s[9..] == [s[9]] && s[9..][1..] == []; }
    assert PartialMatches("e", s[8..]) == [] by { assert s[8..][1..] == s[9..]; }
    assert PartialMatches("e", s[7..]) == [] by { assert s[7..][1..] == s[8..]; }
    assert PartialMatches("e", s[6..]) == [] by { assert s[6..][1..] == s[7..]; }
    assert PartialMatches("e", s[5..]) == [] by { assert s[5..][1..] == s[6..]; }
    assert PartialMatches("e", s[4..]) == [] by { assert s[4..][1..] == s[5..]; }
    assert PartialMatches("e", s[3..]) == ["export"] by { assert s[3..][1..] == s[4..]; }
    assert PartialMatches("e", s[2..]) == ["edit", "export"] by { assert s[2..][1..] == s[3..]; }
    assert PartialMatches("e", s[1..]) == ["edit", "export"] by { assert s[1..][1..] == s[2..]; }
    assert s[1..] == s[0..][1..];
  }

  /** A one-letter lower-case token matches a lower-case name exactly when it is the name's first letter. */
  lemma FirstLetterMatch(name: string, c: char)
    requires |name| >= 1 && 'a' <= c <= 'z' && 'a' <= name[0] <= 'z'
    ensures StartsWithIgnoreCase(name, [c]) <==> name[0] == c
  {
    assert name[..1] == [name[0]];
    assert JavaLang.ToLower([name[0]]) == [name[0]];
    assert JavaLang.ToLower([c]) == [c];
  }
}
