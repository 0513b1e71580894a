/** Binding a memo to its citation ledger: markers that point at nothing are stripped from the prose,
    then References and Source quality are rebuilt from the numbers the prose still cites. */
module MemoBinding {
  import opened TextUtil
  import opened Ledger

  /** A citation marker carries one number or a group of them. */
  datatype Token = Text(text: string) | Marker(nums: seq<nat>)
  datatype Section = Section(title: string, body: seq<Token>)
  datatype Memo = Memo(preamble: seq<Token>, sections: seq<Section>)

  /* ------------------------------------------------------------------ sections */

  /** Sections whose markers are never stripped. */
  predicate Protected(title: string) {
    Contains(title, "Source quality") || Contains(title, "References") || Contains(title, "Limitations")
  }

  predicate IsReferences(title: string) {
    Lower(title) == "references" || Lower(title) == "core references"
  }

  predicate IsQuality(title: string) {
    Lower(title) == "source quality"
  }

  predicate HasReferences(sections: seq<Section>) {
    sections != [] && (IsReferences(sections[0].title) || HasReferences(sections[1..]))
  }

  predicate HasQuality(sections: seq<Section>) {
    sections != [] && (IsQuality(sections[0].title) || HasQuality(sections[1..]))
  }

  function BeforeReferences(sections: seq<Section>): seq<Section> {
    if sections == [] || IsReferences(sections[0].title) then []
    else [sections[0]] + BeforeReferences(sections[1..])
  }

  function FromReferences(sections: seq<Section>): seq<Section> {
    if sections == [] || IsReferences(sections[0].title) then sections else FromReferences(sections[1..])
  }

  function BeforeQuality(sections: seq<Section>): seq<Section> {
    if sections == [] || IsQuality(sections[0].title) then []
    else [sections[0]] + BeforeQuality(sections[1..])
  }

  function FromQuality(sections: seq<Section>): seq<Section> {
    if sections == [] || IsQuality(sections[0].title) then sections else FromQuality(sections[1..])
  }

  /* ------------------------------------------------------------------ the numbers cited */

  function NumSet(nums: seq<nat>): set<nat> {
    set n | n in nums
  }

  function Nums(body: seq<Token>): set<nat> {
    if body == [] then {}
    else (if body[0].Marker? then NumSet(body[0].nums) else {}) + Nums(body[1..])
  }

  function SectionNums(sections: seq<Section>): set<nat> {
    if sections == [] then {} else Nums(sections[0].body) + SectionNums(sections[1..])
  }

  /** Numbers in the sections that are not protected. */
  function OpenNums(sections: seq<Section>): set<nat> {
    if sections == [] then {}
    else (if Protected(sections[0].title) then {} else Nums(sections[0].body)) + OpenNums(sections[1..])
  }

  /** `_cited_numbers`: the memo up to its reference list, and that up to its source-quality list. */
  function Cited(m: Memo): set<nat> {
    Nums(m.preamble) + SectionNums(BeforeQuality(BeforeReferences(m.sections)))
  }

  /** Numbers cited outside the protected sections. */
  function OpenCited(m: Memo): set<nat> {
    Nums(m.preamble) + OpenNums(m.sections)
  }

  function LedgerNums(ledger: seq<Citation>): set<nat> {
    if ledger == [] then {} else {ledger[0].n} + LedgerNums(ledger[1..])
  }

  function Citing(ledger: seq<Citation>, cited: set<nat>): seq<Citation> {
    if ledger == [] then []
    else if ledger[0].n in cited then [ledger[0]] + Citing(ledger[1..], cited)
    else Citing(ledger[1..], cited)
  }

  /** `cited_only`: the ledger entries the memo cites; all of them when it cites nothing. */
  function CitedOnly(m: Memo, ledger: seq<Citation>): seq<Citation> {
    if Cited(m) == {} then ledger else Citing(ledger, Cited(m))
  }

  /* ------------------------------------------------------------------ stripping */

  function StripBody(body: seq<Token>, nums: set<nat>): seq<Token> {
    if body == [] then []
    else if body[0].Marker? && |body[0].nums| == 1 && body[0].nums[0] in nums then StripBody(body[1..], nums)
    else [body[0]] + StripBody(body[1..], nums)
  }

  function StripSection(s: Section, nums: set<nat>): Section {
    if Protected(s.title) then s else Section(s.title, StripBody(s.body, nums))
  }

  function StripSections(sections: seq<Section>, nums: set<nat>): seq<Section> {
    if sections == [] then [] else [StripSection(sections[0], nums)] + StripSections(sections[1..], nums)
  }

  function Strip(m: Memo, nums: set<nat>): Memo {
    Memo(StripBody(m.preamble, nums), StripSections(m.sections, nums))
  }

  /** The dangling-citation step of the integrity pass. */
  function StripDangling(m: Memo, ledger: seq<Citation>): Memo {
    if ledger == [] then m else Strip(m, OpenCited(m) - LedgerNums(ledger))
  }

  /* ------------------------------------------------------------------ binding */

  function Entries(used: seq<Citation>): seq<Token> {
    if used == [] then [] else [Marker([used[0].n]), Text(used[0].id)] + Entries(used[1..])
  }

  function References(used: seq<Citation>): Section {
    Section("References", Entries(used))
  }

  /** The bands of the list, shown as one. */
  function Quality(used: seq<Citation>): Section {
    Section("Source quality", Entries(used))
  }

  function BindReferences(sections: seq<Section>, used: seq<Citation>): seq<Section> {
    if HasReferences(sections) then BeforeReferences(sections) + [References(used)]
    else if used != [] then sections + [References(used)]
    else sections
  }

  function BindQuality(sections: seq<Section>, used: seq<Citation>): seq<Section> {
    if used == [] then sections
    else if HasQuality(sections) then
      BeforeQuality(sections) + [Quality(used)] + FromReferences(FromQuality(sections))
    else if HasReferences(sections) then
      BeforeReferences(sections) + [Quality(used)] + FromReferences(sections)
    else sections
  }

  function Bind(m: Memo, ledger: seq<Citation>): Memo {
    var used := CitedOnly(m, ledger);
    Memo(m.preamble, BindQuality(BindReferences(m.sections, used), used))
  }

  function Publish(m: Memo, ledger: seq<Citation>): Memo {
    Bind(StripDangling(m, ledger), ledger)
  }

  /* ------------------------------------------------------------------ the loops of the program */

  method StripProse(body: seq<Token>, nums: set<nat>) returns (out: seq<Token>)
    ensures out == StripBody(body, nums)
  {
    out := [];
    for i := 0 to |body|
      invariant out + StripBody(body[i..], nums) == StripBody(body, nums)
    {
      assert body[i..][1..] == body[i + 1..];
      if !(body[i].Marker? && |body[i].nums| == 1 && body[i].nums[0] in nums) {
        out := out + [body[i]];
      }
    }
  }

  method StripOutsideProtected(m: Memo, nums: set<nat>) returns (out: Memo)
    ensures out == Strip(m, nums)
  {
    var preamble := StripProse(m.preamble, nums);
    var parts: seq<Section> := [];
    for i := 0 to |m.sections|
      invariant parts + StripSections(m.sections[i..], nums) == StripSections(m.sections, nums)
    {
      assert m.sections[i..][1..] == m.sections[i + 1..];
      var part := m.sections[i];
      var inProtected := Protected(part.title);
      if inProtected {
        parts := parts + [part];
        continue;
      }
      var chunk := StripProse(part.body, nums);
      parts := parts + [Section(part.title, chunk)];
    }
    out := Memo(preamble, parts);
  }

  method BindMarkdown(m: Memo, ledger: seq<Citation>) returns (md: Memo)
    ensures md == Bind(m, ledger)
  {
    md := m;
    var cited, used := Cited(md), ledger;
    if cited != {} {
      used := Citing(ledger, cited);
    }
    if HasReferences(md.sections) {
      md := md.(sections := BeforeReferences(md.sections) + [References(used)]);
    } else if used != [] {
      md := md.(sections := md.sections + [References(used)]);
    }
    if used != [] && HasQuality(md.sections) {
      var after := FromReferences(FromQuality(md.sections));
      md := md.(sections := BeforeQuality(md.sections) + [Quality(used)] + after);
    } else if used != [] && HasReferences(md.sections) {
      var head, tail := BeforeReferences(md.sections), FromReferences(md.sections);
      md := md.(sections := head + [Quality(used)] + tail);
    }
  }

  method EnforceReferences(m: Memo, ledger: seq<Citation>) returns (out: Memo)
    ensures out == Publish(m, ledger)
  {
    out := m;
    if ledger != [] {
      var dangling := OpenCited(m) - LedgerNums(ledger);
      StripNothing(m);
      if dangling != {} {
        out := StripOutsideProtected(m, dangling);
      }
    }
    out := BindMarkdown(out, ledger);
  }

  lemma {:induction false} StripNothing(m: Memo)
    ensures Strip(m, {}) == m
  {
    StripNoToken(m.preamble);
    StripNoSection(m.sections);
  }

  lemma {:induction false} StripNoToken(body: seq<Token>)
    ensures StripBody(body, {}) == body
  {
    if body == [] {
    } else {
      StripNoToken(body[1..]);
    }
  }

  lemma {:induction false} StripNoSection(sections: seq<Section>)
    ensures StripSections(sections, {}) == sections
  {
    if sections == [] {
    } else {
      StripNoToken(sections[0].body);
      StripNoSection(sections[1..]);
    }
  }

  /* ------------------------------------------------------------------ what stripping leaves */

  /** Numbers that stand in a group of several. */
  function Grouped(body: seq<Token>): set<nat> {
    if body == [] then {}
    else (if body[0].Marker? && |body[0].nums| != 1 then NumSet(body[0].nums) else {}) + Grouped(body[1..])
  }

  function OpenGrouped(sections: seq<Section>): set<nat> {
    if sections == [] then {}
    else (if Protected(sections[0].title) then {} else Grouped(sections[0].body)) + OpenGrouped(sections[1..])
  }

  lemma {:induction false} StripBodyExact(body: seq<Token>, nums: set<nat>)
    ensures Nums(StripBody(body, nums)) == (Nums(body) - nums) + (Grouped(body) * nums)
    ensures Grouped(StripBody(body, nums)) == Grouped(body)
    ensures Grouped(body) <= Nums(body)
  {
    if body == [] {
    } else {
      var head, rest := body[0], StripBody(body[1..], nums);
      StripBodyExact(body[1..], nums);
      assert ([head] + rest)[1..] == rest;
      if head.Marker? && |head.nums| == 1 {
        assert NumSet(head.nums) == {head.nums[0]};
      }
    }
  }

  /** Stripping removes exactly the lone markers: outside the protected sections a number survives
      when it is not to be stripped or stands in a group. */
  lemma {:induction false} StripSectionsExact(sections: seq<Section>, nums: set<nat>)
    ensures OpenNums(StripSections(sections, nums)) == (OpenNums(sections) - nums) + (OpenGrouped(sections) * nums)
    ensures OpenGrouped(StripSections(sections, nums)) == OpenGrouped(sections)
    ensures OpenGrouped(sections) <= OpenNums(sections)
  {
    if sections == [] {
    } else {
      var s, rest := sections[0], StripSections(sections[1..], nums);
      var head := StripSections(sections, nums)[0];
      StripBodyExact(s.body, nums);
      StripSectionsExact(sections[1..], nums);
      assert StripSections(sections, nums)[1..] == rest;
    }
  }
}
