/** Citations across a publish: References against the numbers the prose cites. */
module BindingTheorems {
  import opened TextUtil
  import opened Ledger
  import opened MemoBinding

  /** The sections in front of both lists. */
  function Kept(sections: seq<Section>): seq<Section> {
    BeforeQuality(BeforeReferences(sections))
  }

  /* ------------------------------------------------------------------ the shape of a bound memo */

  predicate NoReferences(sections: seq<Section>) {
    sections == [] || (!IsReferences(sections[0].title) && NoReferences(sections[1..]))
  }

  predicate NoQuality(sections: seq<Section>) {
    sections == [] || (!IsQuality(sections[0].title) && NoQuality(sections[1..]))
  }

  lemma {:induction false} Titles()
    ensures IsReferences("References") && !IsQuality("References") && Protected("References")
    ensures IsQuality("Source quality") && !IsReferences("Source quality") && Protected("Source quality")
  {
    assert Lower("References") == "references";
    assert Lower("Source quality") == "source quality";
  }

  lemma {:induction false} BeforeFacts(sections: seq<Section>)
    ensures NoReferences(BeforeReferences(sections)) && NoQuality(BeforeQuality(sections))
    ensures NoReferences(sections) ==> NoReferences(BeforeQuality(sections)) && NoReferences(FromQuality(sections))
    ensures HasReferences(sections) <==> !NoReferences(sections)
    ensures HasQuality(sections) <==> !NoQuality(sections)
    ensures NoReferences(sections) ==> BeforeReferences(sections) == sections
    ensures NoQuality(sections) ==> BeforeQuality(sections) == sections
  {
    if sections == [] {
    } else {
      BeforeFacts(sections[1..]);
      var s := sections[0];
      assert ([s] + BeforeReferences(sections[1..]))[1..] == BeforeReferences(sections[1..]);
      assert ([s] + BeforeQuality(sections[1..]))[1..] == BeforeQuality(sections[1..]);
    }
  }

  /** Cutting at a heading that only the tail holds. */
  lemma {:induction false} CutReferences(front: seq<Section>, tail: seq<Section>)
    requires NoReferences(front) && tail != [] && IsReferences(tail[0].title)
    ensures BeforeReferences(front + tail) == front && FromReferences(front + tail) == tail
    ensures HasReferences(front + tail)
  {
    if front == [] {
      assert front + tail == tail;
    } else {
      assert (front + tail)[1..] == front[1..] + tail;
      CutReferences(front[1..], tail);
    }
  }

  lemma {:induction false} CutQuality(front: seq<Section>, tail: seq<Section>)
    ensures HasQuality(front) ==>
              BeforeQuality(front + tail) == BeforeQuality(front)
              && FromQuality(front + tail) == FromQuality(front) + tail
    ensures NoQuality(front) && tail != [] && IsQuality(tail[0].title) ==> BeforeQuality(front + tail) == front
    ensures HasQuality(front + tail) <==> HasQuality(front) || HasQuality(tail)
  {
    if front == [] {
      assert front + tail == tail;
    } else {
      assert (front + tail)[1..] == front[1..] + tail;
      CutQuality(front[1..], tail);
    }
  }

  /** With something to list, a bound memo is its prose in front of the lists, then the two lists;
      anything that stood behind a list is gone. */
  lemma {:induction false} BindShape(m: Memo, ledger: seq<Citation>)
    requires CitedOnly(m, ledger) != []
    ensures
      var used := CitedOnly(m, ledger);
      Bind(m, ledger).sections == Kept(m.sections) + [Quality(used), References(used)]
  {
    var used := CitedOnly(m, ledger);
    var front, list := BeforeReferences(m.sections), [References(used)];
    Titles();
    BeforeFacts(m.sections);
    BeforeFacts(front);
    CutReferences(front, list);
    CutQuality(front, list);
    assert list[1..] == [];
    var bound := BindReferences(m.sections, used);
    assert bound == front + list;
    if HasQuality(front) {
      CutReferences(FromQuality(front), list);
    }
    assert [Quality(used)] + list == [Quality(used), References(used)];
  }

  /** Binding does not change what counts as cited. */
  lemma {:induction false} BindKeepsCited(m: Memo, ledger: seq<Citation>)
    ensures Cited(Bind(m, ledger)) == Cited(m)
    ensures CitedOnly(m, ledger) != [] ==> Kept(Bind(m, ledger).sections) == Kept(m.sections)
  {
    var used, out := CitedOnly(m, ledger), Bind(m, ledger);
    Titles();
    BeforeFacts(m.sections);
    var front := BeforeReferences(m.sections);
    BeforeFacts(front);
    if used != [] {
      BindShape(m, ledger);
      var kept := Kept(m.sections);
      var lists := [Quality(used), References(used)];
      assert out.sections == (kept + [Quality(used)]) + [References(used)];
      NoReferencesConcat(kept, [Quality(used)]);
      CutReferences(kept + [Quality(used)], [References(used)]);
      BeforeFacts(front);
      CutQuality(kept, [Quality(used)]);
    } else if HasReferences(m.sections) {
      CutReferences(front, [References(used)]);
    }
  }

  lemma {:induction false} NoReferencesConcat(a: seq<Section>, b: seq<Section>)
    requires NoReferences(a) && NoReferences(b)
    ensures NoReferences(a + b)
  {
    if a == [] {
      assert a + b == b;
    } else {
      assert (a + b)[1..] == a[1..] + b;
      NoReferencesConcat(a[1..], b);
    }
  }

  /** Binding twice is binding once. */
  lemma {:induction false} BindIdempotent(m: Memo, ledger: seq<Citation>)
    ensures Bind(Bind(m, ledger), ledger) == Bind(m, ledger)
  {
    var out, used := Bind(m, ledger), CitedOnly(m, ledger);
    BindKeepsCited(m, ledger);
    assert CitedOnly(out, ledger) == used;
    if used != [] {
      BindShape(m, ledger);
      BindShape(out, ledger);
    } else {
      Titles();
      BeforeFacts(m.sections);
      var front := BeforeReferences(m.sections);
      if HasReferences(m.sections) {
        CutReferences(front, [References(used)]);
      }
    }
  }

  /* ------------------------------------------------------------------ what References lists */

  function Numbers(body: seq<Token>): seq<nat> {
    if body == [] then []
    else if body[0].Marker? then body[0].nums + Numbers(body[1..])
    else Numbers(body[1..])
  }

  /** The entry numbers of the first reference list, in order. */
  function Listed(m: Memo): seq<nat> {
    var from := FromReferences(m.sections);
    if from == [] then [] else Numbers(from[0].body)
  }

  function NumbersOf(used: seq<Citation>): seq<nat> {
    if used == [] then [] else [used[0].n] + NumbersOf(used[1..])
  }

  predicate Increasing(ledger: seq<Citation>) {
    |ledger| < 2 || (ledger[0].n < ledger[1].n && Increasing(ledger[1..]))
  }

  predicate Above(ledger: seq<Citation>, n: int) {
    ledger == [] || (n < ledger[0].n && Above(ledger[1..], n))
  }

  lemma {:induction false} EntriesNumbers(used: seq<Citation>)
    ensures Numbers(Entries(used)) == NumbersOf(used)
  {
    if used == [] {
    } else {
      var rest := Entries(used[1..]);
      EntriesNumbers(used[1..]);
      assert Entries(used)[1..] == [Text(used[0].id)] + rest;
      assert ([Text(used[0].id)] + rest)[1..] == rest;
    }
  }

  lemma {:induction false} ListedAfterBind(m: Memo, ledger: seq<Citation>)
    ensures Listed(Bind(m, ledger)) == NumbersOf(CitedOnly(m, ledger))
  {
    var used := CitedOnly(m, ledger);
    Titles();
    BeforeFacts(m.sections);
    BeforeFacts(BeforeReferences(m.sections));
    EntriesNumbers(used);
    if used != [] {
      BindShape(m, ledger);
      var kept := Kept(m.sections);
      NoReferencesConcat(kept, [Quality(used)]);
      CutReferences(kept + [Quality(used)], [References(used)]);
      assert kept + [Quality(used), References(used)] == (kept + [Quality(used)]) + [References(used)];
    } else if HasReferences(m.sections) {
      CutReferences(BeforeReferences(m.sections), [References(used)]);
    } else {
      FromNone(m.sections);
    }
  }

  lemma {:induction false} FromNone(sections: seq<Section>)
    requires NoReferences(sections)
    ensures FromReferences(sections) == []
  {
    if sections == [] {
    } else {
      FromNone(sections[1..]);
    }
  }

  lemma {:induction false} IncreasingAbove(ledger: seq<Citation>)
    requires Increasing(ledger) && ledger != []
    ensures Above(ledger[1..], ledger[0].n)
  {
    if |ledger| > 1 {
      IncreasingAbove(ledger[1..]);
      AboveWeaker(ledger[1..][1..], ledger[1].n, ledger[0].n);
    }
  }

  lemma {:induction false} AboveWeaker(ledger: seq<Citation>, n: int, less: int)
    requires Above(ledger, n) && less <= n
    ensures Above(ledger, less)
  {
    if ledger == [] {
    } else {
      AboveWeaker(ledger[1..], n, less);
    }
  }

  lemma {:induction false} AboveAbsent(ledger: seq<Citation>, n: nat)
    requires Above(ledger, n)
    ensures n !in LedgerNums(ledger) && n !in NumbersOf(ledger)
  {
    if ledger == [] {
    } else {
      AboveAbsent(ledger[1..], n);
    }
  }

  lemma {:induction false} CitingAbove(ledger: seq<Citation>, cited: set<nat>, n: int)
    requires Above(ledger, n)
    ensures Above(Citing(ledger, cited), n)
  {
    if ledger == [] {
    } else {
      CitingAbove(ledger[1..], cited, n);
      assert ([ledger[0]] + Citing(ledger[1..], cited))[1..] == Citing(ledger[1..], cited);
    }
  }

  lemma {:induction false} CitingIncreasing(ledger: seq<Citation>, cited: set<nat>)
    requires Increasing(ledger)
    ensures Increasing(Citing(ledger, cited))
  {
    if ledger == [] {
    } else {
      var rest := Citing(ledger[1..], cited);
      CitingIncreasing(ledger[1..], cited);
      IncreasingAbove(ledger);
      CitingAbove(ledger[1..], cited, ledger[0].n);
      assert ([ledger[0]] + rest)[1..] == rest;
    }
  }

  lemma {:induction false} CitingNumbers(ledger: seq<Citation>, cited: set<nat>)
    ensures LedgerNums(Citing(ledger, cited)) == LedgerNums(ledger) * cited
  {
    if ledger == [] {
    } else {
      var rest := Citing(ledger[1..], cited);
      CitingNumbers(ledger[1..], cited);
      assert ([ledger[0]] + rest)[1..] == rest;
    }
  }

  /** In an increasing list each number stands exactly once. */
  lemma {:induction false} OnceEach(used: seq<Citation>, n: nat)
    requires Increasing(used)
    ensures multiset(NumbersOf(used))[n] == if n in LedgerNums(used) then 1 else 0
  {
    if used == [] {
    } else {
      var rest := NumbersOf(used[1..]);
      assert multiset([used[0].n] + rest) == multiset{used[0].n} + multiset(rest);
      IncreasingAbove(used);
      OnceEach(used[1..], n);
      AboveAbsent(used[1..], used[0].n);
    }
  }

  /** References lists exactly the cited ledger entries, in ledger order, and `cited_only` reports the
      same entries before and after the bind. */
  lemma {:induction false} ReferencesAreTheCited(m: Memo, ledger: seq<Citation>)
    requires Increasing(ledger) && Cited(m) != {}
    ensures
      var out, used := Bind(m, ledger), Citing(ledger, Cited(m));
      && Listed(out) == NumbersOf(used)
      && CitedOnly(out, ledger) == used == CitedOnly(m, ledger)
      && Increasing(used)
      && LedgerNums(used) == LedgerNums(ledger) * Cited(m)
  {
    ListedAfterBind(m, ledger);
    BindKeepsCited(m, ledger);
    CitingIncreasing(ledger, Cited(m));
    CitingNumbers(ledger, Cited(m));
  }

  /** A memo that cites nothing lists the whole ledger. */
  lemma {:induction false} UncitedListsAll(m: Memo, ledger: seq<Citation>)
    requires Cited(m) == {}
    ensures Listed(Bind(m, ledger)) == NumbersOf(ledger) && Cited(Bind(m, ledger)) == {}
  {
    ListedAfterBind(m, ledger);
    BindKeepsCited(m, ledger);
  }

  predicate ListTitle(title: string) {
    Lower(title) in {"references", "core references", "source quality"}
  }

  lemma {:induction false} NoListTitle(sections: seq<Section>, i: nat)
    requires NoReferences(sections) && NoQuality(sections) && i < |sections|
    ensures !ListTitle(sections[i].title)
  {
    if i > 0 {
      NoListTitle(sections[1..], i - 1);
    }
  }

  /** With something to list, a bound memo has one list of each kind, last, and no other section is named
      like one, in whatever letter case. */
  lemma {:induction false} OneListEach(m: Memo, ledger: seq<Citation>, i: nat)
    requires CitedOnly(m, ledger) != [] && i < |Bind(m, ledger).sections|
    ensures
      var sections := Bind(m, ledger).sections;
      && |sections| >= 2
      && (ListTitle(sections[i].title) <==> i >= |sections| - 2)
      && sections[|sections| - 2].title == "Source quality" && sections[|sections| - 1].title == "References"
  {
    BindShape(m, ledger);
    Titles();
    var front := BeforeReferences(m.sections);
    BeforeFacts(m.sections);
    BeforeFacts(front);
    if i < |Kept(m.sections)| {
      NoListTitle(Kept(m.sections), i);
    }
  }

  /* ------------------------------------------------------------------ what publishing leaves alone */

  function Words(body: seq<Token>): seq<Token> {
    if body == [] then [] else if body[0].Text? then [body[0]] + Words(body[1..]) else Words(body[1..])
  }

  lemma {:induction false} StripWords(body: seq<Token>, nums: set<nat>)
    ensures Words(StripBody(body, nums)) == Words(body)
  {
    if body == [] {
    } else {
      StripWords(body[1..], nums);
      assert ([body[0]] + StripBody(body[1..], nums))[1..] == StripBody(body[1..], nums);
    }
  }

  /** Stripping keeps every heading and every word, and the protected sections as they are: those that speak
      of source quality, references or limitations. */
  lemma {:induction false} StripFrame(sections: seq<Section>, nums: set<nat>, i: nat)
    requires i < |sections|
    ensures
      var out := StripSections(sections, nums);
      && |out| == |sections|
      && out[i].title == sections[i].title
      && Words(out[i].body) == Words(sections[i].body)
      && ((exists t :: t in {"Source quality", "References", "Limitations"} && Contains(sections[i].title, t)) ==>
            out[i] == sections[i])
  {
    StripWords(sections[0].body, nums);
    if i > 0 {
      StripFrame(sections[1..], nums, i - 1);
    } else if |sections| > 1 {
      StripFrame(sections[1..], nums, 0);
    }
  }

  /** With no ledger to check against, publishing leaves the prose as it is. */
  lemma {:induction false} NoLedgerNoStrip(m: Memo)
    ensures Publish(m, []).preamble == m.preamble
    ensures BeforeReferences(Publish(m, []).sections) == BeforeReferences(m.sections)
  {
    Titles();
    BeforeFacts(m.sections);
    var front := BeforeReferences(m.sections);
    if HasReferences(m.sections) {
      CutReferences(front, [References([])]);
    }
  }

  /* ------------------------------------------------------------------ every citation resolves */

  /** Each number cited outside the protected sections has exactly one entry. */
  ghost predicate Resolved(m: Memo) {
    forall n :: n in OpenCited(m) ==> multiset(Listed(m))[n] == 1
  }

  lemma {:induction false} OpenConcat(a: seq<Section>, b: seq<Section>)
    ensures OpenNums(a + b) == OpenNums(a) + OpenNums(b)
  {
    if a == [] {
      assert a + b == b;
    } else {
      assert (a + b)[1..] == a[1..] + b;
      OpenConcat(a[1..], b);
    }
  }

  lemma {:induction false} OpenIsCited(sections: seq<Section>)
    ensures OpenNums(sections) <= SectionNums(sections)
  {
    if sections == [] {
    } else {
      OpenIsCited(sections[1..]);
    }
  }

  lemma {:induction false} BeforeOpen(sections: seq<Section>)
    ensures OpenNums(BeforeReferences(sections)) <= OpenNums(sections)
    ensures OpenNums(BeforeQuality(sections)) <= OpenNums(sections)
  {
    if sections == [] {
    } else {
      BeforeOpen(sections[1..]);
      var s := sections[0];
      assert ([s] + BeforeReferences(sections[1..]))[1..] == BeforeReferences(sections[1..]);
      assert ([s] + BeforeQuality(sections[1..]))[1..] == BeforeQuality(sections[1..]);
    }
  }

  lemma {:induction false} StripBefore(sections: seq<Section>, nums: set<nat>)
    ensures BeforeReferences(StripSections(sections, nums)) == StripSections(BeforeReferences(sections), nums)
    ensures BeforeQuality(StripSections(sections, nums)) == StripSections(BeforeQuality(sections), nums)
  {
    if sections == [] {
    } else {
      var s, rest := sections[0], StripSections(sections[1..], nums);
      StripBefore(sections[1..], nums);
      assert ([StripSection(s, nums)] + rest)[1..] == rest;
      assert ([s] + BeforeReferences(sections[1..]))[1..] == BeforeReferences(sections[1..]);
      assert ([s] + BeforeQuality(sections[1..]))[1..] == BeforeQuality(sections[1..]);
    }
  }

  /** The prose of the published memo: the sections in front of both lists, or, when nothing is to be
      listed, all in front of References. */
  function Retained(m: Memo, ledger: seq<Citation>): seq<Section> {
    if CitedOnly(StripDangling(m, ledger), ledger) != [] then Kept(m.sections) else BeforeReferences(m.sections)
  }

  lemma {:induction false} BoundOpen(m: Memo, ledger: seq<Citation>)
    ensures
      var used := CitedOnly(m, ledger);
      var prose := if used != [] then Kept(m.sections) else BeforeReferences(m.sections);
      OpenCited(Bind(m, ledger)) == Nums(m.preamble) + OpenNums(prose)
  {
    var used := CitedOnly(m, ledger);
    Titles();
    BeforeFacts(m.sections);
    if used != [] {
      BindShape(m, ledger);
      var lists := [Quality(used), References(used)];
      OpenConcat(Kept(m.sections), lists);
      assert lists[1..] == [References(used)] && lists[1..][1..] == [];
      assert OpenNums([References(used)]) == {} + OpenNums([References(used)][1..]);
    } else if HasReferences(m.sections) {
      var list := [References(used)];
      OpenConcat(BeforeReferences(m.sections), list);
      assert list[1..] == [];
    }
  }

  lemma {:induction false} PublishedParts(m: Memo, ledger: seq<Citation>)
    requires ledger != []
    ensures
      var dangling := OpenCited(m) - LedgerNums(ledger);
      OpenCited(Publish(m, ledger)) ==
      Nums(StripBody(m.preamble, dangling)) + OpenNums(StripSections(Retained(m, ledger), dangling))
  {
    var dangling := OpenCited(m) - LedgerNums(ledger);
    BoundOpen(StripDangling(m, ledger), ledger);
    StripBefore(m.sections, dangling);
    StripBefore(BeforeReferences(m.sections), dangling);
  }

  lemma {:induction false} RetainedPart(m: Memo, ledger: seq<Citation>)
    ensures OpenNums(Retained(m, ledger)) <= OpenNums(m.sections)
    ensures Grouped(m.preamble) <= Nums(m.preamble) && OpenGrouped(Retained(m, ledger)) <= OpenNums(Retained(m, ledger))
  {
    BeforeOpen(m.sections);
    BeforeOpen(BeforeReferences(m.sections));
    StripBodyExact(m.preamble, {});
    StripSectionsExact(Retained(m, ledger), {});
  }

  lemma {:induction false} StripAlgebra(nums: set<nat>, groups: set<nat>, all: set<nat>, valid: set<nat>)
    requires groups <= nums <= all
    ensures (nums - (all - valid)) + (groups * (all - valid)) == (nums * valid) + (groups - valid)
  {
  }

  /** What the published prose cites: nothing that only a lone dangling marker cited. */
  lemma {:induction false} PublishedOpen(m: Memo, ledger: seq<Citation>)
    requires ledger != []
    ensures
      var prose, valid := Retained(m, ledger), LedgerNums(ledger);
      var nums, groups := Nums(m.preamble) + OpenNums(prose), Grouped(m.preamble) + OpenGrouped(prose);
      && OpenCited(Publish(m, ledger)) == (nums * valid) + (groups - valid)
      && groups <= nums
  {
    var valid, prose := LedgerNums(ledger), Retained(m, ledger);
    var dangling := OpenCited(m) - valid;
    PublishedParts(m, ledger);
    RetainedPart(m, ledger);
    StripBodyExact(m.preamble, dangling);
    StripSectionsExact(prose, dangling);
    StripAlgebra(Nums(m.preamble), Grouped(m.preamble), OpenCited(m), valid);
    StripAlgebra(OpenNums(prose), OpenGrouped(prose), OpenCited(m), valid);
  }

  lemma {:induction false} ListedInPublished(m: Memo, ledger: seq<Citation>, n: nat)
    requires Increasing(ledger) && ledger != [] && n in OpenCited(Publish(m, ledger))
    ensures
      var stripped := StripDangling(m, ledger);
      multiset(Listed(Publish(m, ledger)))[n] ==
      if CitedOnly(stripped, ledger) != [] && n in LedgerNums(ledger) then 1 else 0
  {
    var stripped := StripDangling(m, ledger);
    var used := CitedOnly(stripped, ledger);
    ListedAfterBind(stripped, ledger);
    CitingIncreasing(ledger, Cited(stripped));
    CitingNumbers(ledger, Cited(stripped));
    OnceEach(used, n);
    if used != [] {
      BoundOpen(stripped, ledger);
      OpenIsCited(Kept(stripped.sections));
    }
  }

  /** After stripping and binding, every number cited outside the protected sections has exactly one
      References entry, exactly when no dangling number stands in a group; and, where the text in front
      of the lists cites only sources outside the ledger, exactly when the prose left cites nothing. */
  lemma {:induction false} CitationsResolveIff(m: Memo, ledger: seq<Citation>)
    requires Increasing(ledger) && ledger != []
    ensures
      var prose, valid := Retained(m, ledger), LedgerNums(ledger);
      var groups := Grouped(m.preamble) + OpenGrouped(prose);
      Resolved(Publish(m, ledger)) <==>
      if CitedOnly(StripDangling(m, ledger), ledger) != [] then groups <= valid
      else groups == {} && (Nums(m.preamble) + OpenNums(prose)) !! valid
  {
    var out, prose, valid := Publish(m, ledger), Retained(m, ledger), LedgerNums(ledger);
    var nums, groups := Nums(m.preamble) + OpenNums(prose), Grouped(m.preamble) + OpenGrouped(prose);
    PublishedOpen(m, ledger);
    forall n | n in OpenCited(out)
      ensures multiset(Listed(out))[n] ==
              if CitedOnly(StripDangling(m, ledger), ledger) != [] && n in valid then 1 else 0
    {
      ListedInPublished(m, ledger, n);
    }
    if CitedOnly(StripDangling(m, ledger), ledger) != [] {
      assert forall n :: n in OpenCited(out) && n !in valid ==> n in groups - valid;
      assert groups - valid <= OpenCited(out);
    } else {
      assert Resolved(out) <==> OpenCited(out) == {};
      assert OpenCited(out) == {} <==> nums * valid == {} && groups - valid == {};
    }
  }

  lemma {:induction false} StripKeepsOthers(sections: seq<Section>, nums: set<nat>)
    ensures SectionNums(sections) - nums <= SectionNums(StripSections(sections, nums))
  {
    if sections == [] {
    } else {
      StripBodyExact(sections[0].body, nums);
      StripKeepsOthers(sections[1..], nums);
      var head, rest := StripSection(sections[0], nums), StripSections(sections[1..], nums);
      assert ([head] + rest)[1..] == rest;
    }
  }

  /** A number of the ledger that the memo cites in front of its lists is still cited there after the
      strip, so the lists are built. */
  lemma {:induction false} AnchoredIsListed(m: Memo, ledger: seq<Citation>)
    requires Cited(m) * LedgerNums(ledger) != {}
    ensures CitedOnly(StripDangling(m, ledger), ledger) != []
  {
    var stripped, valid := StripDangling(m, ledger), LedgerNums(ledger);
    var dangling := OpenCited(m) - valid;
    StripBefore(m.sections, dangling);
    StripBefore(BeforeReferences(m.sections), dangling);
    StripBodyExact(m.preamble, dangling);
    StripKeepsOthers(Kept(m.sections), dangling);
    CitingNumbers(ledger, Cited(stripped));
    var n :| n in Cited(m) * valid;
    assert n in Cited(stripped) * valid;
  }

  lemma {:induction false} BeforeGroups(sections: seq<Section>)
    ensures OpenGrouped(BeforeReferences(sections)) <= OpenGrouped(sections)
    ensures OpenGrouped(BeforeQuality(sections)) <= OpenGrouped(sections)
  {
    if sections == [] {
    } else {
      BeforeGroups(sections[1..]);
      var s := sections[0];
      assert ([s] + BeforeReferences(sections[1..]))[1..] == BeforeReferences(sections[1..]);
      assert ([s] + BeforeQuality(sections[1..]))[1..] == BeforeQuality(sections[1..]);
    }
  }

  /** Dangling numbers that stand alone all go; with one ledger source cited in front of the lists,
      every citation left resolves to exactly one entry. */
  lemma {:induction false} LoneDanglersResolve(m: Memo, ledger: seq<Citation>)
    requires Increasing(ledger) && Cited(m) * LedgerNums(ledger) != {}
    requires Grouped(m.preamble) + OpenGrouped(m.sections) <= LedgerNums(ledger)
    ensures Resolved(Publish(m, ledger))
  {
    AnchoredIsListed(m, ledger);
    BeforeGroups(m.sections);
    BeforeGroups(BeforeReferences(m.sections));
    CitationsResolveIff(m, ledger);
  }

  /** Without such a source the lists are not built: a limitation that cites an unknown source, in front
      of a Source quality section, leaves a good citation behind that section with no entry. */
  lemma {:induction false} CitationWithoutEntry(c: Citation, unknown: nat)
    requires unknown != c.n
    ensures
      var m := Memo([], [Section("Limitations", [Marker([unknown])]),
                         Section("Source quality", []), Section("Notes", [Marker([c.n])])]);
      c.n in OpenCited(Publish(m, [c])) && Listed(Publish(m, [c])) == []
  {
    var lists := [Section("Source quality", []), Section("Notes", [Marker([c.n])])];
    var limits := Section("Limitations", [Marker([unknown])]);
    var m := Memo([], [limits] + lists);
    Titles();
    NotesTitles();
    assert ([limits] + lists)[1..] == lists && lists[1..] == [Section("Notes", [Marker([c.n])])];
    assert NoReferences(lists[1..]) && NoReferences(lists) && NoReferences(m.sections);
    BeforeFacts(m.sections);
    assert BeforeQuality(lists) == [] && Kept(m.sections) == [limits];
    OneMarker(unknown);
    OneMarker(c.n);
    assert SectionNums([limits]) == {unknown};
    assert OpenNums(lists[1..]) == {c.n} + OpenNums(lists[1..][1..]) && OpenNums(m.sections) == {c.n};
    assert StripDangling(m, [c]) == m by {
      assert LedgerNums([c]) == {c.n};
      assert OpenCited(m) - LedgerNums([c]) == {};
      StripNothing(m);
    }
    assert Citing([c], {unknown}) == [];
    assert Cited(m) == {unknown};
    ListedAfterBind(m, [c]);
    BoundOpen(m, [c]);
  }

  lemma {:induction false} NotesTitles()
    ensures !IsReferences("Notes") && !IsQuality("Notes") && !Protected("Notes")
    ensures !IsReferences("Limitations") && !IsQuality("Limitations") && Protected("Limitations")
  {
    assert |Lower("Notes")| == 5 && |Lower("Limitations")| == 11;
    assert Lower("Limitations")[0] == 'l';
  }

  lemma {:induction false} OneMarker(n: nat)
    ensures Nums([Marker([n])]) == {n}
  {
    assert NumSet([n]) == {n};
    assert [Marker([n])][1..] == [];
  }
}
