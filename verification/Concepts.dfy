/** Removing duplicate concepts: of names that contain one another only the longest are kept. */
module Concepts {
  import opened TextUtil

  datatype Concept = Concept(title: string, paper: nat)

  /** Lower case, then stripped. */
  function Name(c: Concept): string {
    Strip(Lower(c.title))
  }

  /** What the filter of the program compares with: lower case, not stripped. */
  predicate Unpadded(c: Concept) {
    Lower(c.title) == Name(c)
  }

  function Names(concepts: seq<Concept>): set<string> {
    if concepts == [] then {} else {Name(concepts[0])} + Names(concepts[1..])
  }

  /** Drop the concepts whose lower-case title is in `gone`. */
  function Drop(concepts: seq<Concept>, gone: set<string>): seq<Concept> {
    if concepts == [] then []
    else if Lower(concepts[0].title) in gone then Drop(concepts[1..], gone)
    else [concepts[0]] + Drop(concepts[1..], gone)
  }

  datatype Kept = Kept(unique: seq<Concept>, seen: set<string>)

  /** Names already seen that lie inside `name`. */
  function Inside(seen: set<string>, name: string): set<string> {
    set s | s in seen && Contains(name, s)
  }

  function Around(seen: set<string>, name: string): set<string> {
    set s | s in seen && Contains(s, name)
  }

  function Add(k: Kept, c: Concept): Kept {
    var name := Name(c);
    if Around(k.seen, name) != {} then k
    else
      var gone := Inside(k.seen, name);
      Kept(Drop(k.unique, gone) + [c], (k.seen - gone) + {name})
  }

  function AddAll(k: Kept, concepts: seq<Concept>): Kept
    decreases |concepts|
  {
    if concepts == [] then k else AddAll(Add(k, concepts[0]), concepts[1..])
  }

  function Deduplicate(concepts: seq<Concept>): Kept {
    AddAll(Kept([], {}), concepts)
  }

  /* ------------------------------------------------------------------ containment is an order */

  lemma {:induction false} ContainsSelf(s: string)
    ensures Contains(s, s)
  {
    assert s[..|s|] == s;
  }

  lemma {:induction false} ContainsParts(s: string, t: string) returns (before: string, after: string)
    requires Contains(s, t)
    ensures s == before + t + after
    decreases |s|
  {
    if s[..|t|] == t {
      before, after := "", s[|t|..];
    } else {
      before, after := ContainsParts(s[1..], t);
      before := [s[0]] + before;
    }
  }

  lemma {:induction false} PartsContain(before: string, t: string, after: string)
    ensures Contains(before + t + after, t)
    decreases |before|
  {
    var s := before + t + after;
    if before == "" {
      assert s[..|t|] == t;
    } else {
      assert s[1..] == before[1..] + t + after;
      PartsContain(before[1..], t, after);
    }
  }

  lemma {:induction false} ContainsTransitive(a: string, b: string, c: string)
    requires Contains(a, b) && Contains(b, c)
    ensures Contains(a, c)
  {
    var b1, b2 := ContainsParts(a, b);
    var c1, c2 := ContainsParts(b, c);
    assert a == (b1 + c1) + c + (c2 + b2);
    PartsContain(b1 + c1, c, c2 + b2);
  }

  lemma {:induction false} ContainsShorter(a: string, b: string)
    requires Contains(a, b)
    ensures |b| <= |a| && (|a| == |b| ==> a == b)
  {
    var before, after := ContainsParts(a, b);
    assert |a| == |before| + |b| + |after|;
    if |a| == |b| {
      assert before == "" && after == "";
    }
  }

  /** No name seen lies inside another. */
  ghost predicate Antichain(seen: set<string>) {
    forall a, b :: a in seen && b in seen && Contains(a, b) ==> a == b
  }

  /** Every name lies inside a name seen. */
  ghost predicate Covers(seen: set<string>, names: set<string>) {
    forall n :: n in names ==> Around(seen, n) != {}
  }

  /* ------------------------------------------------------------------ the loops of the program */

  lemma {:induction false} DropTwice(concepts: seq<Concept>, gone: set<string>, s: string)
    ensures Drop(Drop(concepts, gone), {s}) == Drop(concepts, gone + {s})
  {
    if concepts == [] {
    } else {
      DropTwice(concepts[1..], gone, s);
      var rest := Drop(concepts[1..], gone);
      assert ([concepts[0]] + rest)[1..] == rest;
    }
  }

  lemma {:induction false} DropNone(concepts: seq<Concept>)
    ensures Drop(concepts, {}) == concepts
  {
    if concepts == [] {
    } else {
      DropNone(concepts[1..]);
    }
  }

  /** In an antichain no name both holds a seen name and lies inside one, unless it is seen itself. */
  lemma {:induction false} InsideOrAround(seen: set<string>, name: string, s: string)
    requires Antichain(seen) && name !in seen && s in seen
    requires Contains(s, name) || Contains(name, s)
    ensures |name| > |s| <==> Contains(name, s)
    ensures |name| > |s| ==> Around(seen, name) == {}
  {
    if Contains(name, s) {
      ContainsShorter(name, s);
      if Around(seen, name) != {} {
        var wide :| wide in Around(seen, name);
        ContainsTransitive(wide, name, s);
        ContainsShorter(wide, name);
      }
    } else {
      ContainsShorter(s, name);
      ContainsSelf(name);
    }
  }

  /** One pass of the inner loop over the names seen, taken in any order. */
  method SkipOrReplace(k: Kept, c: Concept) returns (out: Kept)
    requires Antichain(k.seen)
    ensures out == Add(k, c)
  {
    var name, unique, seen := Name(c), k.unique, k.seen;
    if name in seen {
      ContainsSelf(name);
      assert name in Around(k.seen, name);
      return k;
    }
    var todo, gone: set<string>, similar := k.seen, {}, false;
    DropNone(unique);
    while todo != {}
      invariant todo <= k.seen && gone <= k.seen
      invariant forall s :: s in k.seen && s !in todo ==> !Contains(s, name) && (Contains(name, s) <==> s in gone)
      invariant gone !! todo && gone <= Inside(k.seen, name)
      invariant unique == Drop(k.unique, gone) && seen == k.seen - gone && !similar
    {
      var s :| s in todo;
      todo := todo - {s};
      if Contains(s, name) || Contains(name, s) {
        InsideOrAround(k.seen, name, s);
        if |name| > |s| {
          DropTwice(k.unique, gone, s);
          unique, seen, gone := Drop(unique, {s}), seen - {s}, gone + {s};
          assert s !in Around(k.seen, name);
        } else {
          assert s in Around(k.seen, name);
          NothingGone(k.seen, name, gone, s);
          DropNone(k.unique);
          similar := true;
          break;
        }
      }
    }
    if similar {
      return Kept(unique, seen);
    }
    assert Around(k.seen, name) == {};
    assert gone == Inside(k.seen, name);
    out := Kept(unique + [c], seen + {name});
  }

  /** Nothing was removed before a similar name was met. */
  lemma {:induction false} NothingGone(seen: set<string>, name: string, gone: set<string>, wide: string)
    requires Antichain(seen) && name !in seen && gone <= Inside(seen, name)
    requires wide in Around(seen, name)
    ensures gone == {}
  {
    if gone != {} {
      var s :| s in gone;
      ContainsTransitive(wide, name, s);
      ContainsShorter(wide, name);
      ContainsShorter(name, s);
    }
  }

  /* ------------------------------------------------------------------ the names seen */

  /** Names that lie inside no other name. */
  ghost function Maximal(names: set<string>): set<string> {
    set n | n in names && forall m :: m in names && Contains(m, n) ==> m == n
  }

  ghost predicate Seen(seen: set<string>, names: set<string>) {
    Antichain(seen) && Covers(seen, names) && seen <= names
  }

  /** A covering antichain of names is the set of maximal ones. */
  lemma {:induction false} SeenIsMaximal(seen: set<string>, names: set<string>)
    requires Seen(seen, names)
    ensures seen == Maximal(names)
  {
    forall n | n in names ensures n in seen <==> n in Maximal(names) {
      var wide :| wide in Around(seen, n);
      if n in seen {
        forall m | m in names && Contains(m, n) ensures m == n {
          var wider :| wider in Around(seen, m);
          ContainsTransitive(wider, m, n);
          ContainsShorter(wider, m);
          ContainsShorter(m, n);
        }
      } else {
        assert wide in names && Contains(wide, n) && wide != n;
      }
    }
  }

  lemma {:induction false} AddSeen(k: Kept, c: Concept, names: set<string>)
    requires Seen(k.seen, names)
    ensures Seen(Add(k, c).seen, names + {Name(c)})
  {
    var name, next := Name(c), Add(k, c).seen;
    if Around(k.seen, name) == {} {
      ContainsSelf(name);
      forall n | n in names + {name} ensures Around(next, n) != {} {
        if n == name {
          assert name in Around(next, name);
        } else {
          var wide :| wide in Around(k.seen, n);
          if wide in Inside(k.seen, name) {
            ContainsTransitive(name, wide, n);
            assert name in Around(next, n);
          } else {
            assert wide in Around(next, n);
          }
        }
      }
      forall a, b | a in next && b in next && Contains(a, b) ensures a == b {
        assert b == name ==> a == name || a in Around(k.seen, name);
      }
    }
  }

  lemma {:induction false} AddAllSeen(k: Kept, concepts: seq<Concept>, names: set<string>)
    requires Seen(k.seen, names)
    ensures Seen(AddAll(k, concepts).seen, names + Names(concepts))
    decreases |concepts|
  {
    if concepts == [] {
      assert names + {} == names;
    } else {
      AddSeen(k, concepts[0], names);
      AddAllSeen(Add(k, concepts[0]), concepts[1..], names + {Name(concepts[0])});
      assert names + {Name(concepts[0])} + Names(concepts[1..]) == names + Names(concepts);
    }
  }

  /** Whatever the order of the concepts, the names seen at the end are the maximal ones. */
  lemma {:induction false} SeenAreMaximal(concepts: seq<Concept>)
    ensures Deduplicate(concepts).seen == Maximal(Names(concepts))
  {
    AddAllSeen(Kept([], {}), concepts, {});
    assert {} + Names(concepts) == Names(concepts);
    SeenIsMaximal(Deduplicate(concepts).seen, Names(concepts));
  }

  method DeduplicateConcepts(concepts: seq<Concept>) returns (k: Kept)
    ensures k == Deduplicate(concepts)
  {
    k := Kept([], {});
    ghost var names := {};
    for i := 0 to |concepts|
      invariant AddAll(k, concepts[i..]) == Deduplicate(concepts)
      invariant Seen(k.seen, names)
    {
      var c := concepts[i];
      assert concepts[i..][1..] == concepts[i + 1..];
      AddSeen(k, c, names);
      names := names + {Name(c)};
      k := SkipOrReplace(k, c);
    }
  }

  lemma {:induction false} NamesSnoc(concepts: seq<Concept>, c: Concept)
    ensures Names(concepts + [c]) == Names(concepts) + {Name(c)}
  {
    if concepts == [] {
      assert ([] + [c])[1..] == [];
    } else {
      assert (concepts + [c])[1..] == concepts[1..] + [c];
      NamesSnoc(concepts[1..], c);
    }
  }

  /* ------------------------------------------------------------------ the concepts kept */

  /** Concepts whose name lies inside another name are given without padding. */
  ghost predicate NeatBelow(concepts: seq<Concept>, names: set<string>) {
    forall c :: c in concepts && Name(c) !in Maximal(names) ==> Unpadded(c)
  }

  lemma {:induction false} NameFirm(c: Concept)
    ensures Firm(Name(c), SPACES) && Strip(Name(c)) == Name(c)
  {
    TrimFirm(Lower(c.title), SPACES);
    FirmTrim(Name(c), SPACES);
  }

  /** The filter drops exactly the concepts with the names replaced, when those are unpadded. */
  lemma {:induction false} DropNames(concepts: seq<Concept>, gone: set<string>)
    requires forall c :: c in concepts && Name(c) in gone ==> Unpadded(c)
    requires forall s :: s in gone ==> Strip(s) == s
    ensures Names(Drop(concepts, gone)) == Names(concepts) - gone
    ensures forall c :: c in Drop(concepts, gone) ==> c in concepts
  {
    if concepts == [] {
    } else {
      var rest := Drop(concepts[1..], gone);
      DropNames(concepts[1..], gone);
      assert ([concepts[0]] + rest)[1..] == rest;
      assert Lower(concepts[0].title) in gone <==> Name(concepts[0]) in gone;
    }
  }

  ghost predicate AllStripped(names: set<string>) {
    forall s :: s in names ==> Strip(s) == s
  }

  lemma {:induction false} AddNames(k: Kept, c: Concept, names: set<string>)
    requires Names(k.unique) == k.seen && AllStripped(k.seen)
    requires NeatBelow(k.unique, names) && k.seen <= names && Name(c) in names
    ensures Names(Add(k, c).unique) == Add(k, c).seen && AllStripped(Add(k, c).seen)
    ensures forall u :: u in Add(k, c).unique ==> u in k.unique || u == c
  {
    var name := Name(c);
    NameFirm(c);
    if Around(k.seen, name) == {} {
      var gone := Inside(k.seen, name);
      forall u | u in k.unique && Name(u) in gone ensures Unpadded(u) {
        ContainsSelf(name);
        assert name in k.seen ==> name in Around(k.seen, name);
      }
      DropNames(k.unique, gone);
      NamesSnoc(Drop(k.unique, gone), c);
    }
  }

  lemma {:induction false} AddAllNames(k: Kept, concepts: seq<Concept>, names: set<string>)
    requires Names(k.unique) == k.seen && AllStripped(k.seen) && k.seen <= names && Names(concepts) <= names
    requires NeatBelow(k.unique, names) && NeatBelow(concepts, names)
    ensures Names(AddAll(k, concepts).unique) == AddAll(k, concepts).seen
    decreases |concepts|
  {
    if concepts == [] {
    } else {
      AddNames(k, concepts[0], names);
      AddAllNames(Add(k, concepts[0]), concepts[1..], names);
    }
  }

  /** Without padding below the maximal names, the concepts kept carry exactly the maximal names. */
  lemma {:induction false} KeptAreMaximal(concepts: seq<Concept>)
    requires NeatBelow(concepts, Names(concepts))
    ensures Names(Deduplicate(concepts).unique) == Maximal(Names(concepts))
  {
    SeenAreMaximal(concepts);
    AddAllNames(Kept([], {}), concepts, Names(concepts));
  }

  /* ------------------------------------------------------------------ a padded concept stays */

  lemma {:induction false} DropKeeps(concepts: seq<Concept>, gone: set<string>, c: Concept)
    requires c in concepts && Lower(c.title) !in gone
    ensures c in Drop(concepts, gone)
  {
    if concepts[0] != c {
      DropKeeps(concepts[1..], gone, c);
    }
  }

  /** Once kept, a padded concept is never dropped: the filter looks for stripped names. */
  lemma {:induction false} PaddedStays(k: Kept, concepts: seq<Concept>, c: Concept)
    requires c in k.unique && !Unpadded(c) && AllStripped(k.seen)
    ensures c in AddAll(k, concepts).unique
    decreases |concepts|
  {
    if concepts == [] {
    } else {
      NameFirm(concepts[0]);
      var gone := Inside(k.seen, Name(concepts[0]));
      assert Lower(c.title) in gone ==> Strip(Lower(c.title)) == Lower(c.title);
      DropKeeps(k.unique, gone, c);
      PaddedStays(Add(k, concepts[0]), concepts[1..], c);
    }
  }

  lemma {:induction false} InNames(concepts: seq<Concept>, c: Concept)
    requires c in concepts
    ensures Name(c) in Names(concepts)
  {
    if concepts[0] != c {
      InNames(concepts[1..], c);
    }
  }

  lemma {:induction false} NamesOfSet(concepts: seq<Concept>, n: string)
    ensures n in Names(concepts) <==> exists c :: c in concepts && Name(c) == n
  {
    if concepts == [] {
    } else {
      NamesOfSet(concepts[1..], n);
    }
  }

  lemma {:induction false} NamesOfPermutation(a: seq<Concept>, b: seq<Concept>)
    requires multiset(a) == multiset(b)
    ensures Names(a) == Names(b)
  {
    forall c ensures c in a <==> c in b {
      assert c in multiset(a) <==> c in multiset(b);
    }
    forall n ensures n in Names(a) <==> n in Names(b) {
      NamesOfSet(a, n);
      NamesOfSet(b, n);
    }
  }

  lemma {:induction false} ToFront(concepts: seq<Concept>, c: Concept) returns (rest: seq<Concept>)
    requires c in concepts
    ensures multiset([c] + rest) == multiset(concepts)
  {
    var i :| 0 <= i < |concepts| && concepts[i] == c;
    rest := concepts[..i] + concepts[i + 1..];
    assert concepts == concepts[..i] + [c] + concepts[i + 1..];
  }

  lemma {:induction false} PaddedFirst(c: Concept, rest: seq<Concept>)
    requires !Unpadded(c)
    ensures Name(c) in Names(Deduplicate([c] + rest).unique)
  {
    var k := Add(Kept([], {}), c);
    NameFirm(c);
    assert k.unique == [c] && k.seen == {Name(c)};
    assert ([c] + rest)[1..] == rest;
    PaddedStays(k, rest, c);
    InNames(AddAll(k, rest).unique, c);
  }

  /** No maximal name lies inside another one, and every name lies inside a maximal one. */
  lemma {:induction false} MaximalNames(concepts: seq<Concept>)
    ensures Antichain(Maximal(Names(concepts))) && Covers(Maximal(Names(concepts)), Names(concepts))
  {
    AddAllSeen(Kept([], {}), concepts, {});
    assert {} + Names(concepts) == Names(concepts);
    SeenAreMaximal(concepts);
  }

  /* ------------------------------------------------------------------ the order with the longest first */

  /** The concepts whose name is in `names`, or the others. */
  function Select(concepts: seq<Concept>, names: set<string>, wanted: bool): seq<Concept> {
    if concepts == [] then []
    else if (Name(concepts[0]) in names) == wanted then [concepts[0]] + Select(concepts[1..], names, wanted)
    else Select(concepts[1..], names, wanted)
  }

  lemma {:induction false} SelectFacts(concepts: seq<Concept>, names: set<string>, wanted: bool)
    ensures Names(Select(concepts, names, wanted)) ==
            if wanted then Names(concepts) * names else Names(concepts) - names
  {
    if concepts == [] {
    } else {
      SelectFacts(concepts[1..], names, wanted);
      var rest := Select(concepts[1..], names, wanted);
      assert ([concepts[0]] + rest)[1..] == rest;
    }
  }

  lemma {:induction false} SelectSplits(concepts: seq<Concept>, names: set<string>)
    ensures multiset(Select(concepts, names, true) + Select(concepts, names, false)) == multiset(concepts)
  {
    if concepts == [] {
    } else {
      SelectSplits(concepts[1..], names);
      assert concepts == [concepts[0]] + concepts[1..];
    }
  }

  /** A maximal concept is skipped or put behind the others. */
  lemma {:induction false} AddMaximal(k: Kept, c: Concept, names: set<string>)
    requires Names(k.unique) == k.seen && k.seen <= Maximal(names) && Name(c) in Maximal(names)
    ensures Names(Add(k, c).unique) == Add(k, c).seen && Add(k, c).seen <= Maximal(names)
  {
    var name := Name(c);
    if Around(k.seen, name) == {} {
      ContainsSelf(name);
      assert name !in Around(k.seen, name);
      forall s | s in k.seen ensures !Contains(name, s) {
        assert s in Maximal(names) && name in names;
      }
      assert Inside(k.seen, name) == {};
      DropNone(k.unique);
      NamesSnoc(k.unique, c);
    }
  }

  lemma {:induction false} AddMaximals(k: Kept, concepts: seq<Concept>, names: set<string>)
    requires Names(k.unique) == k.seen && k.seen <= Maximal(names) && Names(concepts) <= Maximal(names)
    ensures
      var next := AddAll(k, concepts);
      Names(next.unique) == next.seen && next.seen <= Maximal(names)
    decreases |concepts|
  {
    if concepts == [] {
    } else {
      AddMaximal(k, concepts[0], names);
      AddMaximals(Add(k, concepts[0]), concepts[1..], names);
    }
  }

  /** Concepts whose names lie inside a name seen change nothing. */
  lemma {:induction false} AllSkipped(k: Kept, concepts: seq<Concept>)
    requires Covers(k.seen, Names(concepts))
    ensures AddAll(k, concepts) == k
    decreases |concepts|
  {
    if concepts == [] {
    } else {
      AllSkipped(k, concepts[1..]);
    }
  }

  lemma {:induction false} AddAllConcat(k: Kept, a: seq<Concept>, b: seq<Concept>)
    ensures AddAll(k, a + b) == AddAll(AddAll(k, a), b)
    decreases |a|
  {
    if a == [] {
      assert a + b == b;
    } else {
      assert (a + b)[1..] == a[1..] + b;
      AddAllConcat(Add(k, a[0]), a[1..], b);
    }
  }

  /** The maximal names among the maximal names are all of them. */
  lemma {:induction false} MaximalTwice(names: set<string>)
    ensures Maximal(Maximal(names)) == Maximal(names)
  {
  }

  /** With the concepts of maximal names first, exactly these names are kept, padded or not. */
  lemma {:induction false} MaximalFirst(concepts: seq<Concept>) returns (p: seq<Concept>)
    ensures multiset(p) == multiset(concepts)
    ensures Names(Deduplicate(p).unique) == Maximal(Names(concepts))
  {
    var names := Names(concepts);
    var top, rest := Select(concepts, Maximal(names), true), Select(concepts, Maximal(names), false);
    p := top + rest;
    SelectSplits(concepts, Maximal(names));
    SelectFacts(concepts, Maximal(names), true);
    SelectFacts(concepts, Maximal(names), false);
    assert Names(top) == Maximal(names);
    AddMaximals(Kept([], {}), top, names);
    SeenAreMaximal(top);
    MaximalTwice(names);
    MaximalNames(concepts);
    AddAllConcat(Kept([], {}), top, rest);
    AllSkipped(Deduplicate(top), rest);
  }

  /* ------------------------------------------------------------------ exactly when the order matters */

  lemma {:induction false} NeatInEveryOrder(concepts: seq<Concept>, p: seq<Concept>)
    requires NeatBelow(concepts, Names(concepts)) && multiset(p) == multiset(concepts)
    ensures Names(Deduplicate(p).unique) == Maximal(Names(concepts))
  {
    NamesOfPermutation(p, concepts);
    forall c | c in p && Name(c) !in Maximal(Names(concepts)) ensures Unpadded(c) {
      assert c in multiset(p);
      assert c in concepts;
    }
    KeptAreMaximal(p);
  }

  /** Every order of the concepts keeps the same names, namely the maximal ones, if and only if every concept
      whose name lies inside another one is given without padding. */
  lemma {:induction false} OrderIndependentIff(concepts: seq<Concept>)
    ensures
      (forall p :: multiset(p) == multiset(concepts) ==> Names(Deduplicate(p).unique) == Maximal(Names(concepts)))
      <==> NeatBelow(concepts, Names(concepts))
    ensures
      (forall p, q :: multiset(p) == multiset(concepts) && multiset(q) == multiset(concepts) ==>
        Names(Deduplicate(p).unique) == Names(Deduplicate(q).unique))
      <==> NeatBelow(concepts, Names(concepts))
  {
    var names := Names(concepts);
    if NeatBelow(concepts, names) {
      forall p | multiset(p) == multiset(concepts) ensures Names(Deduplicate(p).unique) == Maximal(names) {
        NeatInEveryOrder(concepts, p);
      }
    } else {
      var c :| c in concepts && Name(c) !in Maximal(names) && !Unpadded(c);
      var rest := ToFront(concepts, c);
      PaddedFirst(c, rest);
      var q := MaximalFirst(concepts);
      assert multiset([c] + rest) == multiset(concepts) && multiset(q) == multiset(concepts);
    }
  }

  /* ------------------------------------------------------------------ the order of the kept concepts */

  /** `some` is `all` with some concepts left out. */
  predicate LeftOver(some: seq<Concept>, all: seq<Concept>)
    decreases |all|
  {
    if all == [] then some == []
    else LeftOver(some, all[..|all| - 1])
         || (&& some != [] && some[|some| - 1] == all[|all| - 1]
             && LeftOver(some[..|some| - 1], all[..|all| - 1]))
  }

  lemma {:induction false} DropSnoc(concepts: seq<Concept>, c: Concept, gone: set<string>)
    ensures Drop(concepts + [c], gone) == Drop(concepts, gone) + if Lower(c.title) in gone then [] else [c]
  {
    if concepts == [] {
      assert [] + [c] == [c] && [c][1..] == [];
    } else {
      assert (concepts + [c])[1..] == concepts[1..] + [c];
      DropSnoc(concepts[1..], c, gone);
    }
  }

  lemma {:induction false} DropLeftOver(some: seq<Concept>, all: seq<Concept>, gone: set<string>)
    requires LeftOver(some, all)
    ensures LeftOver(Drop(some, gone), all)
    decreases |all|
  {
    if all == [] {
    } else if LeftOver(some, all[..|all| - 1]) {
      DropLeftOver(some, all[..|all| - 1], gone);
    } else {
      var front, last := some[..|some| - 1], some[|some| - 1];
      DropLeftOver(front, all[..|all| - 1], gone);
      assert some == front + [last];
      DropSnoc(front, last, gone);
      var dropped := Drop(front, gone);
      if Lower(last.title) !in gone {
        var longer := dropped + [last];
        assert Drop(some, gone) == longer && longer[..|longer| - 1] == dropped;
      } else {
        assert Drop(some, gone) == dropped;
      }
    }
  }

  lemma {:induction false} AddLeftOver(k: Kept, before: seq<Concept>, c: Concept)
    requires LeftOver(k.unique, before)
    ensures LeftOver(Add(k, c).unique, before + [c])
  {
    var all, kept := before + [c], Drop(k.unique, Inside(k.seen, Name(c)));
    assert all[..|all| - 1] == before;
    DropLeftOver(k.unique, before, Inside(k.seen, Name(c)));
    assert (kept + [c])[..|kept + [c]| - 1] == kept;
  }

  lemma {:induction false} AddAllLeftOver(k: Kept, before: seq<Concept>, concepts: seq<Concept>)
    requires LeftOver(k.unique, before)
    ensures LeftOver(AddAll(k, concepts).unique, before + concepts)
    decreases |concepts|
  {
    if concepts == [] {
      assert before + [] == before;
    } else {
      AddLeftOver(k, before, concepts[0]);
      AddAllLeftOver(Add(k, concepts[0]), before + [concepts[0]], concepts[1..]);
      assert before + [concepts[0]] + concepts[1..] == before + concepts;
    }
  }

  /** The concepts kept are concepts of the input, in their order. */
  lemma {:induction false} KeptInOrder(concepts: seq<Concept>)
    ensures LeftOver(Deduplicate(concepts).unique, concepts)
  {
    AddAllLeftOver(Kept([], {}), [], concepts);
    assert [] + concepts == concepts;
  }
}
