/** The citation ledger: ranked sources, numbered in order, each source once. */
module Ledger {

  /** A ranked candidate. `id` is its id or else its url; `canon` names the underlying source and may
      be blank; `citable` is false for a url that must not be cited, `chrome` when the only quote to
      be had is page navigation. */
  datatype Candidate = Candidate(id: string, canon: string, citable: bool, chrome: bool)

  datatype Citation = Citation(n: nat, id: string, canon: string)

  predicate Skipped(c: Candidate, seen: set<string>) {
    c.id == "" || c.id in seen || (c.canon != "" && c.canon in seen) || !c.citable
  }

  function Marked(c: Candidate, seen: set<string>): set<string> {
    if c.canon != "" then seen + {c.id} + {c.canon} else seen + {c.id}
  }

  /** The entries still to come, numbered from `n`; the list closes once it holds `k`. A source whose
      quote is chrome is marked as seen and yet not listed. */
  function Numbered(ranked: seq<Candidate>, seen: set<string>, n: nat, k: int): (r: seq<Citation>)
    ensures forall i :: 0 <= i < |r| ==> r[i].n == n + i
    ensures r == [] || n - 1 + |r| <= n || n - 1 + |r| <= k
    decreases |ranked|
  {
    if ranked == [] then []
    else if Skipped(ranked[0], seen) then Numbered(ranked[1..], seen, n, k)
    else if ranked[0].chrome then Numbered(ranked[1..], Marked(ranked[0], seen), n, k)
    else
      [Citation(n, ranked[0].id, ranked[0].canon)] +
      (if n >= k then [] else Numbered(ranked[1..], Marked(ranked[0], seen), n + 1, k))
  }

  function BuildLedger(ranked: seq<Candidate>, k: int): seq<Citation> {
    Numbered(ranked, {}, 1, k)
  }

  method NumberSources(ranked: seq<Candidate>, k: int) returns (out: seq<Citation>)
    ensures out == BuildLedger(ranked, k)
  {
    out := [];
    var seen: set<string>, n := {}, 1;
    for i := 0 to |ranked|
      invariant n == |out| + 1
      invariant out + Numbered(ranked[i..], seen, n, k) == BuildLedger(ranked, k)
    {
      var c := ranked[i];
      assert ranked[i..][1..] == ranked[i + 1..];
      if c.id == "" || c.id in seen || (c.canon != "" && c.canon in seen) {
        continue;
      }
      if !c.citable {
        continue;
      }
      seen := seen + {c.id};
      if c.canon != "" {
        seen := seen + {c.canon};
      }
      if c.chrome {
        continue;
      }
      out := out + [Citation(n, c.id, c.canon)];
      n := n + 1;
      if |out| >= k {
        break;
      }
    }
  }

  /* ------------------------------------------------------------------ one entry a source */

  predicate Avoids(c: Citation, seen: set<string>) {
    c.id !in seen && c.id != "" && (c.canon == "" || c.canon !in seen)
  }

  lemma {:induction false} NumberedAvoids(ranked: seq<Candidate>, seen: set<string>, n: nat, k: int, i: nat)
    requires i < |Numbered(ranked, seen, n, k)|
    ensures Avoids(Numbered(ranked, seen, n, k)[i], seen)
    decreases |ranked|
  {
    if Skipped(ranked[0], seen) {
      NumberedAvoids(ranked[1..], seen, n, k, i);
    } else if ranked[0].chrome {
      NumberedAvoids(ranked[1..], Marked(ranked[0], seen), n, k, i);
    } else if i > 0 {
      NumberedAvoids(ranked[1..], Marked(ranked[0], seen), n + 1, k, i - 1);
    }
  }

  /** Two entries share neither id nor source, and no id is another entry's source. */
  predicate Apart(a: Citation, b: Citation) {
    && a.id != b.id
    && (a.canon == "" || (a.canon != b.canon && a.canon != b.id))
    && (b.canon == "" || a.id != b.canon)
  }

  lemma {:induction false} NumberedApart(ranked: seq<Candidate>, seen: set<string>, n: nat, k: int, i: nat, j: nat)
    requires i < j < |Numbered(ranked, seen, n, k)|
    ensures Apart(Numbered(ranked, seen, n, k)[i], Numbered(ranked, seen, n, k)[j])
    decreases |ranked|
  {
    if Skipped(ranked[0], seen) {
      NumberedApart(ranked[1..], seen, n, k, i, j);
    } else if ranked[0].chrome {
      NumberedApart(ranked[1..], Marked(ranked[0], seen), n, k, i, j);
    } else if i > 0 {
      NumberedApart(ranked[1..], Marked(ranked[0], seen), n + 1, k, i - 1, j - 1);
    } else {
      NumberedAvoids(ranked[1..], Marked(ranked[0], seen), n + 1, k, j - 1);
    }
  }

  /* ------------------------------------------------------------------ no source is lost */

  predicate Listable(c: Candidate) {
    c.id != "" && c.citable && !c.chrome
  }

  /** The candidate's id or source is already taken. */
  predicate Taken(c: Candidate, seen: set<string>) {
    c.id in seen || (c.canon != "" && c.canon in seen)
  }

  /** Every id and source that the candidates claim. */
  function Claimed(ranked: seq<Candidate>): set<string> {
    if ranked == [] then {} else Marked(ranked[0], Claimed(ranked[1..]))
  }

  predicate Lists(entries: seq<Citation>, c: Candidate) {
    exists i :: 0 <= i < |entries| && entries[i].id == c.id && entries[i].canon == c.canon
  }

  lemma {:induction false} ListsTail(head: Citation, entries: seq<Citation>, c: Candidate)
    requires Lists(entries, c)
    ensures Lists([head] + entries, c)
  {
    var i :| 0 <= i < |entries| && entries[i].id == c.id && entries[i].canon == c.canon;
    assert ([head] + entries)[i + 1] == entries[i];
  }

  lemma {:induction false} NumberedComplete(ranked: seq<Candidate>, seen: set<string>, n: nat, k: int, at: nat)
    requires at < |ranked| && Listable(ranked[at])
    ensures
      var entries := Numbered(ranked, seen, n, k);
      || Lists(entries, ranked[at])
      || Taken(ranked[at], seen + Claimed(ranked[..at]))
      || (entries != [] && n - 1 + |entries| >= k)
    decreases |ranked|
  {
    var c, rest := ranked[at], ranked[1..];
    var entries := Numbered(ranked, seen, n, k);
    if at == 0 {
      assert !Skipped(c, seen) ==> entries[0].id == c.id && entries[0].canon == c.canon;
    } else {
      assert rest[at - 1] == c && ranked[..at][1..] == rest[..at - 1];
      var claimed := Claimed(rest[..at - 1]);
      assert Claimed(ranked[..at]) == Marked(ranked[0], claimed);
      if Skipped(ranked[0], seen) {
        NumberedComplete(rest, seen, n, k, at - 1);
      } else {
        var seen' := Marked(ranked[0], seen);
        assert seen' + claimed == seen + Marked(ranked[0], claimed);
        if ranked[0].chrome {
          NumberedComplete(rest, seen', n, k, at - 1);
        } else if n < k {
          NumberedComplete(rest, seen', n + 1, k, at - 1);
          var tail := Numbered(rest, seen', n + 1, k);
          assert entries == [Citation(n, ranked[0].id, ranked[0].canon)] + tail;
          if Lists(tail, c) {
            ListsTail(Citation(n, ranked[0].id, ranked[0].canon), tail, c);
          }
        }
      }
    }
  }

  /** The entries are listable candidates, in the order of the candidates. */
  predicate Drawn(ranked: seq<Candidate>, entries: seq<Citation>)
    decreases |ranked|
  {
    if ranked == [] then entries == []
    else
      || (&& entries != [] && Listable(ranked[0])
          && entries[0].id == ranked[0].id && entries[0].canon == ranked[0].canon
          && Drawn(ranked[1..], entries[1..]))
      || Drawn(ranked[1..], entries)
  }

  lemma {:induction false} DrawnNone(ranked: seq<Candidate>)
    ensures Drawn(ranked, [])
  {
    if ranked == [] {
    } else {
      DrawnNone(ranked[1..]);
    }
  }

  lemma {:induction false} NumberedDrawn(ranked: seq<Candidate>, seen: set<string>, n: nat, k: int)
    ensures Drawn(ranked, Numbered(ranked, seen, n, k))
    decreases |ranked|
  {
    if ranked == [] {
    } else if Skipped(ranked[0], seen) {
      NumberedDrawn(ranked[1..], seen, n, k);
    } else if ranked[0].chrome {
      NumberedDrawn(ranked[1..], Marked(ranked[0], seen), n, k);
    } else {
      var entries := Numbered(ranked, seen, n, k);
      if n >= k {
        DrawnNone(ranked[1..]);
        assert entries[1..] == [];
      } else {
        NumberedDrawn(ranked[1..], Marked(ranked[0], seen), n + 1, k);
        assert entries[1..] == Numbered(ranked[1..], Marked(ranked[0], seen), n + 1, k);
      }
    }
  }

  /** Numbers run 1, 2, 3, …; at most max(1, k) entries, listable candidates in their order; entries never
      share an id or a source; and a listable candidate is left out only when an earlier one claims its id or
      source, or the list is full. */
  lemma {:induction false} LedgerFacts(ranked: seq<Candidate>, k: int)
    ensures
      var ledger := BuildLedger(ranked, k);
      && (forall i :: 0 <= i < |ledger| ==> ledger[i].n == i + 1)
      && |ledger| <= (if k < 1 then 1 else k)
      && (forall i, j :: 0 <= i < j < |ledger| ==> Apart(ledger[i], ledger[j]))
      && Drawn(ranked, ledger)
    ensures forall at :: 0 <= at < |ranked| && Listable(ranked[at]) ==>
              || Lists(BuildLedger(ranked, k), ranked[at])
              || Taken(ranked[at], Claimed(ranked[..at]))
              || |BuildLedger(ranked, k)| == (if k < 1 then 1 else k)
  {
    var ledger := BuildLedger(ranked, k);
    NumberedDrawn(ranked, {}, 1, k);
    forall i, j | 0 <= i < j < |ledger| ensures Apart(ledger[i], ledger[j]) {
      NumberedApart(ranked, {}, 1, k, i, j);
    }
    forall at | 0 <= at < |ranked| && Listable(ranked[at])
      ensures Lists(ledger, ranked[at]) || Taken(ranked[at], Claimed(ranked[..at]))
              || |ledger| == if k < 1 then 1 else k
    {
      NumberedComplete(ranked, {}, 1, k, at);
      assert {} + Claimed(ranked[..at]) == Claimed(ranked[..at]);
    }
  }
}
