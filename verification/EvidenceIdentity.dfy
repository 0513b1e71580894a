/** When rows identify consistently, the two-key reducer is a plain group-by on ids, and its
    algebraic laws hold. */
module EvidenceIdentity {
  import opened Common
  import opened EvidenceMerge
  import opened EvidenceSeparation
  import opened TextUtil

  /** Every row has an id, and rows that share an id or a url key have the same id. Rows need
      not have a url, and one id may come with several urls. */
  ghost predicate IdAnchored(rows: seq<Row>) {
    && (forall k :: 0 <= k < |rows| ==> Id(rows[k]) != "")
    && (forall j, k :: 0 <= j < |rows| && 0 <= k < |rows| ==>
          Tokens(rows[j]) !! Tokens(rows[k]) || Id(rows[j]) == Id(rows[k]))
  }

  /* ------------------------------------------------------------------ the reference: group by id */

  function Position(out: seq<Row>, id: string): (i: nat)
    ensures i <= |out|
    ensures i < |out| ==> Id(out[i]) == id
    ensures forall j :: 0 <= j < i ==> Id(out[j]) != id
  {
    if out == [] || Id(out[0]) == id then 0 else 1 + Position(out[1..], id)
  }

  function Put(out: seq<Row>, r: Row): seq<Row> {
    var i := Position(out, Id(r));
    if i < |out| then out[i := Overlay(out[i], r)] else out + [r]
  }

  function GroupById(out: seq<Row>, rows: seq<Row>): seq<Row>
    decreases |rows|
  {
    if rows == [] then out else GroupById(Put(out, rows[0]), rows[1..])
  }

  lemma {:induction false} GroupConcat(out: seq<Row>, a: seq<Row>, b: seq<Row>)
    ensures GroupById(out, a + b) == GroupById(GroupById(out, a), b)
    decreases |a|
  {
    if a == [] {
      assert a + b == b;
    } else {
      assert (a + b)[1..] == a[1..] + b;
      GroupConcat(Put(out, a[0]), a[1..], b);
    }
  }

  predicate IdsDistinct(rows: seq<Row>) {
    forall i, j :: 0 <= i < j < |rows| ==> Id(rows[i]) != Id(rows[j])
  }

  lemma {:induction false} GroupDistinct(out: seq<Row>, rows: seq<Row>)
    requires IdsDistinct(out + rows)
    ensures GroupById(out, rows) == out + rows
    decreases |rows|
  {
    if rows == [] {
      assert out + rows == out;
    } else {
      var r := rows[0];
      assert forall j :: 0 <= j < |out| ==> (out + rows)[j] == out[j];
      assert (out + rows)[|out|] == r;
      assert Put(out, r) == out + [r];
      assert out + [r] + rows[1..] == out + rows;
      GroupDistinct(out + [r], rows[1..]);
    }
  }

  /* ------------------------------------------------------------------ the reducer groups by id */

  /** Token `t` appears on some row of `all` whose id is `id`. */
  ghost predicate Owned(all: seq<Row>, t: string, id: string) {
    exists k :: 0 <= k < |all| && t in Tokens(all[k]) && Id(all[k]) == id
  }

  ghost predicate RowOwned(all: seq<Row>, r: Row) {
    Id(r) != "" && forall t :: t in Tokens(r) ==> Owned(all, t, Id(r))
  }

  lemma {:induction false} OneOwner(all: seq<Row>, t: string, id: string, id': string)
    requires IdAnchored(all) && Owned(all, t, id) && Owned(all, t, id')
    ensures id == id'
  {
    var j :| 0 <= j < |all| && t in Tokens(all[j]) && Id(all[j]) == id;
    var k :| 0 <= k < |all| && t in Tokens(all[k]) && Id(all[k]) == id';
  }

  /** The row at place `i` owns its tokens, and its id leads to it. */
  ghost predicate RowFound(all: seq<Row>, s: State, i: nat)
    requires i < |s.out|
  {
    RowOwned(all, s.out[i]) && Id(s.out[i]) in s.seen && s.seen[Id(s.out[i])] == i
  }

  /** The index sends `t` to a row whose id owns it. */
  ghost predicate TokenFound(all: seq<Row>, s: State, t: string)
    requires Valid(s) && t in s.seen
  {
    t != "" && Owned(all, t, Id(s.out[s.seen[t]]))
  }

  ghost predicate Anchored(all: seq<Row>, s: State) {
    && Valid(s)
    && (forall i: nat :: i < |s.out| ==> RowFound(all, s, i))
    && (forall t :: t in s.seen ==> TokenFound(all, s, t))
  }

  /** The two-key lookup finds exactly the row with the same id. */
  lemma {:induction false} PlaceIsPosition(all: seq<Row>, s: State, r: Row)
    requires IdAnchored(all) && Anchored(all, s) && RowOwned(all, r)
    ensures Place(s, r) == Position(s.out, Id(r))
  {
    LearnKeys(s.seen, r, 0);
    var p := Position(s.out, Id(r));
    if Find(s.seen, r).Some? {
      var i := Find(s.seen, r).value;
      var t := if Id(r) in s.seen then Id(r) else UrlKey(r);
      assert TokenFound(all, s, t);
      OneOwner(all, t, Id(s.out[i]), Id(r));
    }
    assert p < |s.out| ==> RowFound(all, s, p);
  }

  lemma {:induction false} StepPuts(all: seq<Row>, s: State, r: Row)
    requires IdAnchored(all) && Anchored(all, s) && RowOwned(all, r)
    ensures Step(s, r).out == Put(s.out, r)
  {
    PlaceIsPosition(all, s, r);
  }

  /** A row laid over one with the same id owns its tokens. */
  lemma {:induction false} OverlayOwned(all: seq<Row>, kept: Row, item: Row)
    requires RowOwned(all, kept) && RowOwned(all, item) && Id(kept) == Id(item)
    ensures RowOwned(all, Overlay(kept, item)) && Id(Overlay(kept, item)) == Id(item)
  {
    OverlayTokens(kept, item);
    OverlayKeepsField(kept, item, "id");
  }

  lemma {:induction false} PutOwned(all: seq<Row>, s: State, r: Row, j: nat)
    requires Anchored(all, s) && RowOwned(all, r) && j < |Put(s.out, r)|
    ensures RowOwned(all, Put(s.out, r)[j])
    ensures Id(Put(s.out, r)[j]) == if j == Position(s.out, Id(r)) then Id(r) else Id(s.out[j])
  {
    var i := Position(s.out, Id(r));
    assert j < |s.out| ==> RowFound(all, s, j);
    if i < |s.out| && j == i {
      OverlayOwned(all, s.out[i], r);
    }
  }

  lemma {:induction false} StepTokenFound(all: seq<Row>, s: State, r: Row, t: string)
    requires IdAnchored(all) && Anchored(all, s) && RowOwned(all, r) && t in Step(s, r).seen
    ensures TokenFound(all, Step(s, r), t)
  {
    PlaceIsPosition(all, s, r);
    StepPuts(all, s, r);
    LearnKeys(s.seen, r, Place(s, r));
    PutOwned(all, s, r, Step(s, r).seen[t]);
    assert t !in Tokens(r) ==> TokenFound(all, s, t);
  }

  lemma {:induction false} StepRowFound(all: seq<Row>, s: State, r: Row, j: nat)
    requires IdAnchored(all) && Anchored(all, s) && RowOwned(all, r) && j < |Step(s, r).out|
    ensures RowFound(all, Step(s, r), j)
  {
    PlaceIsPosition(all, s, r);
    StepPuts(all, s, r);
    LearnKeys(s.seen, r, Place(s, r));
    PutOwned(all, s, r, j);
    if j != Place(s, r) {
      assert RowFound(all, s, j);
      var id := Id(s.out[j]);
      assert Owned(all, id, id);
      if id in Tokens(r) {
        OneOwner(all, id, id, Id(r));
      }
    }
  }

  lemma {:induction false} StepAnchored(all: seq<Row>, s: State, r: Row)
    requires IdAnchored(all) && Anchored(all, s) && RowOwned(all, r)
    ensures Anchored(all, Step(s, r))
  {
    var s' := Step(s, r);
    forall t | t in s'.seen ensures TokenFound(all, s', t) {
      StepTokenFound(all, s, r, t);
    }
    forall j: nat | j < |s'.out| ensures RowFound(all, s', j) {
      StepRowFound(all, s, r, j);
    }
  }

  lemma {:induction false} FoldAnchored(all: seq<Row>, s: State, rows: seq<Row>)
    requires IdAnchored(all) && Anchored(all, s)
    requires forall k :: 0 <= k < |rows| ==> RowOwned(all, rows[k])
    ensures Fold(s, rows).out == GroupById(s.out, rows)
    ensures Anchored(all, Fold(s, rows))
    decreases |rows|
  {
    if rows == [] {
    } else {
      StepPuts(all, s, rows[0]);
      StepAnchored(all, s, rows[0]);
      FoldAnchored(all, Step(s, rows[0]), rows[1..]);
    }
  }

  lemma {:induction false} RowsOwnThemselves(rows: seq<Row>)
    requires IdAnchored(rows)
    ensures forall k :: 0 <= k < |rows| ==> RowOwned(rows, rows[k])
  {
  }

  /** With consistent identities the reducer is a group-by on ids. */
  lemma {:induction false} MergeGroupsById(left: seq<Row>, right: seq<Row>)
    requires IdAnchored(left + right)
    ensures Merge(left, right) == GroupById([], left + right)
  {
    RowsOwnThemselves(left + right);
    FoldAnchored(left + right, START, left + right);
  }

  /** Then ids and url keys are unique in the output, and merging it with nothing changes
      nothing. */
  lemma {:induction false} MergeUnique(left: seq<Row>, right: seq<Row>)
    requires IdAnchored(left + right)
    ensures Separate(Merge(left, right)) && IdsDistinct(Merge(left, right))
    ensures Merge(Merge(left, right), []) == Merge(left, right)
  {
    var rows := left + right;
    RowsOwnThemselves(rows);
    FoldAnchored(rows, START, rows);
    var out := Merge(left, right);
    var s := Fold(START, rows);
    forall i, j | 0 <= i < j < |out| ensures Tokens(out[i]) !! Tokens(out[j]) && Id(out[i]) != Id(out[j]) {
      assert RowFound(rows, s, i) && RowFound(rows, s, j);
      if t :| t in Tokens(out[i]) && t in Tokens(out[j]) {
        OneOwner(rows, t, Id(out[i]), Id(out[j]));
      }
    }
    MergeFixpointIff(out);
  }

  lemma {:induction false} OutputOwned(all: seq<Row>, s: State)
    requires Anchored(all, s)
    ensures forall k :: 0 <= k < |s.out| ==> RowOwned(all, s.out[k])
  {
    forall k | 0 <= k < |s.out| ensures RowOwned(all, s.out[k]) {
      assert RowFound(all, s, k);
    }
  }

  lemma {:induction false} OutputAnchored(all: seq<Row>, out: seq<Row>, more: seq<Row>)
    requires IdAnchored(all)
    requires forall k :: 0 <= k < |out| ==> RowOwned(all, out[k])
    requires forall k :: 0 <= k < |more| ==> RowOwned(all, more[k])
    ensures IdAnchored(out + more)
  {
    var rows := out + more;
    forall j, k | 0 <= j < |rows| && 0 <= k < |rows|
      ensures Tokens(rows[j]) !! Tokens(rows[k]) || Id(rows[j]) == Id(rows[k])
    {
      assert RowOwned(all, rows[j]) && RowOwned(all, rows[k]);
      if t :| t in Tokens(rows[j]) && t in Tokens(rows[k]) {
        OneOwner(all, t, Id(rows[j]), Id(rows[k]));
      }
    }
  }

  lemma {:induction false} PartsOwned(rows: seq<Row>, more: seq<Row>)
    requires IdAnchored(rows + more)
    ensures IdAnchored(rows)
    ensures forall k :: 0 <= k < |rows| ==> RowOwned(rows + more, rows[k])
    ensures forall k :: 0 <= k < |more| ==> RowOwned(rows + more, more[k])
  {
    var all := rows + more;
    RowsOwnThemselves(all);
    forall k | 0 <= k < |rows| ensures Id(rows[k]) != "" && RowOwned(all, rows[k]) {
      assert rows[k] == all[k];
    }
    forall k | 0 <= k < |more| ensures RowOwned(all, more[k]) {
      assert more[k] == all[|rows| + k];
    }
    forall j, k | 0 <= j < |rows| && 0 <= k < |rows|
      ensures Tokens(rows[j]) !! Tokens(rows[k]) || Id(rows[j]) == Id(rows[k])
    {
      assert rows[j] == all[j] && rows[k] == all[k];
    }
  }

  lemma {:induction false} GroupStages(rows: seq<Row>, out: seq<Row>, more: seq<Row>)
    requires out == GroupById([], rows) && IdsDistinct(out)
    ensures GroupById([], out + more) == GroupById([], rows + more)
  {
    GroupConcat([], out, more);
    GroupConcat([], rows, more);
    assert [] + out == out;
    GroupDistinct([], out);
  }

  lemma {:induction false} SecondStageGroups(left: seq<Row>, right: seq<Row>, more: seq<Row>)
    requires IdAnchored(left + right + more)
    ensures var out := Merge(left, right);
            Merge(out, more) == GroupById([], out + more) && IdsDistinct(out) && out == GroupById([], left + right)
  {
    var rows := left + right;
    PartsOwned(rows, more);
    FoldAnchored(rows + more, START, rows);
    OutputOwned(rows + more, Fold(START, rows));
    MergeUnique(left, right);
    OutputAnchored(rows + more, Merge(left, right), more);
    MergeGroupsById(Merge(left, right), more);
  }

  lemma {:induction false} OneStageGroups(left: seq<Row>, right: seq<Row>, more: seq<Row>)
    requires IdAnchored(left + right + more)
    ensures Merge(left, right + more) == GroupById([], left + right + more)
  {
    assert left + (right + more) == left + right + more;
    MergeGroupsById(left, right + more);
  }

  /** And merging in two stages agrees with merging at once. */
  lemma {:induction false} MergeAssociative(left: seq<Row>, right: seq<Row>, more: seq<Row>)
    requires IdAnchored(left + right + more)
    ensures Merge(Merge(left, right), more) == Merge(left, right + more)
  {
    SecondStageGroups(left, right, more);
    OneStageGroups(left, right, more);
    GroupStages(left + right, Merge(left, right), more);
  }

  /* ------------------------------------------------------------------ without the hypothesis */

  /** A row with the id of one row and the url of another touches both, so the output has a duplicate
      url, and merging it again with nothing drops a row. */
  lemma {:induction false} InconsistentRowsBreakIt()
    ensures
      var a: Row := map["id" := Text("1"), "url" := Text("u")];
      var b: Row := map["id" := Text("2"), "url" := Text("v")];
      var c: Row := map["id" := Text("1"), "url" := Text("v")];
      var out := Merge([a, b], [c]);
      !TouchesAtMostOne(c, [a, b]) && !Separate(out) && |Merge(out, [])| < |out|
  {
    var a: Row := map["id" := Text("1"), "url" := Text("u")];
    var b: Row := map["id" := Text("2"), "url" := Text("v")];
    var c: Row := map["id" := Text("1"), "url" := Text("v")];
    KeysOf(a, "1", "u");
    KeysOf(b, "2", "v");
    KeysOf(c, "1", "v");
    assert "1" in Tokens(c) && "1" in Tokens([a, b][0]) && "v" in Tokens(c) && "v" in Tokens([a, b][1]);
    assert Shares(c, [a, b][0]) && Shares(c, [a, b][1]);
    MergeSeparateIff([a, b], c);
    ClashDropsARow(Merge([a, b], [c]));
  }

  lemma {:induction false} KeysOf(r: Row, id: string, u: string)
    requires r == map["id" := Text(id), "url" := Text(u)] && id != ""
    requires |u| == 1 && 'a' <= u[0] <= 'z'
    ensures Id(r) == id && Tokens(r) == {id, u}
  {
    assert TextField(r, "url") == u;
    assert Lower(u) == u;
  }
}
