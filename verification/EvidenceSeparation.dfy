/** Exactly when the reducer keeps ids and url keys on one row each, and when it is associative, read off
    the rows sent to each place. */
module EvidenceSeparation {
  import opened Common
  import opened EvidenceMerge
  import opened TextUtil

  predicate Shares(r: Row, kept: Row) {
    !(Tokens(r) !! Tokens(kept))
  }

  /* ------------------------------------------------------------------ one more row */

  lemma {:induction false} OverlayKeepsField(kept: Row, item: Row, field: string)
    ensures TextField(Overlay(kept, item), field) ==
            if field in item && Truthy(item[field]) then TextField(item, field) else TextField(kept, field)
  {
  }

  /** A row laid over another keeps its own tokens and adds none but the other's. */
  lemma {:induction false} OverlayTokens(kept: Row, item: Row)
    ensures Tokens(item) <= Tokens(Overlay(kept, item)) <= Tokens(kept) + Tokens(item)
  {
    OverlayKeepsField(kept, item, "id");
    OverlayKeepsField(kept, item, "url");
  }

  /** The row touches no output row but the one it is sent to. */
  ghost predicate Clear(s: State, r: Row) {
    forall j :: 0 <= j < |s.out| && Shares(r, s.out[j]) ==> j == Place(s, r)
  }

  /** Unique ids and url keys survive a row exactly when it touches no output row but its own. */
  lemma {:induction false} StepSeparateIff(s: State, r: Row)
    requires Valid(s) && Separate(s.out)
    ensures Separate(Step(s, r).out) <==> Clear(s, r)
  {
    var p, out := Place(s, r), Step(s, r).out;
    if p < |s.out| {
      OverlayTokens(s.out[p], r);
    }
    if Clear(s, r) {
      forall i, j | 0 <= i < j < |out| ensures Tokens(out[i]) !! Tokens(out[j]) {
        if i == p {
          assert !Shares(r, s.out[j]);
        } else if j == p {
          assert !Shares(r, s.out[i]);
        }
      }
    } else {
      var j :| 0 <= j < |s.out| && Shares(r, s.out[j]) && j != p;
      var t :| t in Tokens(r) && t in Tokens(s.out[j]);
      assert t in Tokens(out[p]) && t in Tokens(out[j]);
    }
  }

  /** The row shares an id or a url key with at most one of the rows. */
  predicate TouchesAtMostOne(r: Row, out: seq<Row>) {
    forall i, j :: 0 <= i < j < |out| ==> !(Shares(r, out[i]) && Shares(r, out[j]))
  }

  lemma {:induction false} FoldKeepsKey(s: State, rows: seq<Row>, t: string)
    requires Valid(s) && t in s.seen && t !in AllTokens(rows)
    ensures t in Fold(s, rows).seen && Fold(s, rows).seen[t] == s.seen[t]
    decreases |rows|
  {
    if rows == [] {
    } else {
      LearnKeys(s.seen, rows[0], Place(s, rows[0]));
      FoldKeepsKey(Step(s, rows[0]), rows[1..], t);
    }
  }

  lemma {:induction false} HeadIndexed(s: State, rows: seq<Row>, t: string)
    requires Valid(s) && Separate(rows) && AllTokens(rows) !! s.seen.Keys
    requires rows != [] && t in Tokens(rows[0])
    ensures t in Fold(s, rows).seen && Fold(s, rows).seen[t] == |s.out|
  {
    LearnKeys(s.seen, rows[0], |s.out|);
    SeparateHead(rows);
    FoldKeepsKey(Step(s, rows[0]), rows[1..], t);
  }

  /** The index of unique rows sends each token to its row. */
  lemma {:induction false} FoldIndex(s: State, rows: seq<Row>, j: nat, t: string)
    requires Valid(s) && Separate(rows) && AllTokens(rows) !! s.seen.Keys
    requires j < |rows| && t in Tokens(rows[j])
    ensures t in Fold(s, rows).seen && Fold(s, rows).seen[t] == |s.out| + j
    decreases |rows|
  {
    if j == 0 {
      HeadIndexed(s, rows, t);
    } else {
      StepAppends(s, rows[0]);
      SeparateHead(rows);
      FoldIndex(Step(s, rows[0]), rows[1..], j - 1, t);
    }
  }

  /** The state after merging unique rows with nothing. */
  lemma {:induction false} UniqueState(out: seq<Row>)
    requires Separate(out)
    ensures Fold(START, out).out == out && Fold(START, out).seen.Keys == AllTokens(out)
  {
    FoldAppends(START, out);
    SeenTokens(START, out);
  }

  lemma {:induction false} PlaceShares(out: seq<Row>, r: Row)
    requires Separate(out) && Place(Fold(START, out), r) < |out|
    ensures Shares(r, out[Place(Fold(START, out), r)])
  {
    var s := Fold(START, out);
    UniqueState(out);
    var t := if Id(r) != "" && Id(r) in s.seen then Id(r) else UrlKey(r);
    var k := TokenOwner(out, t);
    FoldIndex(START, out, k, t);
  }

  lemma {:induction false} NoPlaceNoShare(out: seq<Row>, r: Row, j: nat)
    requires Separate(out) && Place(Fold(START, out), r) >= |out| && j < |out|
    ensures !Shares(r, out[j])
  {
    var s := Fold(START, out);
    UniqueState(out);
    LearnKeys(s.seen, r, 0);
    TokensIn(out, j);
  }

  lemma {:induction false} ClearIff(out: seq<Row>, r: Row)
    requires Separate(out)
    ensures Clear(Fold(START, out), r) <==> TouchesAtMostOne(r, out)
  {
    var s := Fold(START, out);
    UniqueState(out);
    if Place(s, r) < |out| {
      PlaceShares(out, r);
    } else {
      forall j | 0 <= j < |out| ensures !Shares(r, out[j]) {
        NoPlaceNoShare(out, r, j);
      }
    }
  }

  /** One more row keeps ids and url keys unique exactly when it shares one with at most one row. */
  lemma {:induction false} MergeSeparateIff(out: seq<Row>, r: Row)
    requires Separate(out)
    ensures Separate(Merge(out, [r])) <==> TouchesAtMostOne(r, out)
  {
    var s := Fold(START, out);
    FoldConcat(START, out, [r]);
    FoldOne(s, r);
    UniqueState(out);
    StepSeparateIff(s, r);
    ClearIff(out, r);
  }

  /** Merging a list with nothing drops a row exactly when two of its rows share an id or a url key. */
  lemma {:induction false} ClashDropsARow(out: seq<Row>)
    ensures |Merge(out, [])| < |out| <==> !Separate(out)
  {
    MergeFixpointIff(out);
    if !Separate(out) {
      var i, j :| 0 <= i < j < |out| && !(Tokens(out[i]) !! Tokens(out[j]));
      var t :| t in Tokens(out[i]) && t in Tokens(out[j]);
      TokensIn(out[..j], i);
      FoldShrinks(START, out, j, t);
      assert out + [] == out;
    }
  }

  /* ------------------------------------------------------------------ a whole run */

  ghost predicate AllClear(s: State, rows: seq<Row>)
    requires Valid(s)
    decreases |rows|
  {
    rows == [] || (Clear(s, rows[0]) && AllClear(Step(s, rows[0]), rows[1..]))
  }

  ghost predicate SeparateThroughout(s: State, rows: seq<Row>)
    requires Valid(s)
    decreases |rows|
  {
    Separate(s.out) && (rows == [] || SeparateThroughout(Step(s, rows[0]), rows[1..]))
  }

  /** Ids and url keys stay unique throughout a merge exactly when no row touches an output row other
      than the one it is sent to. */
  lemma {:induction false} StaysSeparateIff(s: State, rows: seq<Row>)
    requires Valid(s) && Separate(s.out)
    ensures SeparateThroughout(s, rows) <==> AllClear(s, rows)
    decreases |rows|
  {
    if rows == [] {
    } else {
      StepSeparateIff(s, rows[0]);
      if Clear(s, rows[0]) {
        StaysSeparateIff(Step(s, rows[0]), rows[1..]);
      } else {
        assert !Separate(Step(s, rows[0]).out);
      }
    }
  }

  /* ------------------------------------------------------------------ associativity on the input rows */

  /** The place of the last row that carries the token; `-1` when none does. */
  function LastPlace(s: State, rows: seq<Row>, t: string): int
    requires Valid(s)
    decreases |rows|
  {
    if rows == [] then -1
    else
      var later := LastPlace(Step(s, rows[0]), rows[1..], t);
      if later >= 0 then later else if t in Tokens(rows[0]) then Place(s, rows[0]) else -1
  }

  lemma {:induction false} LastPlaceIsIndexed(s: State, rows: seq<Row>, t: string)
    requires Valid(s)
    ensures
      var n, at := Fold(s, rows), LastPlace(s, rows, t);
      && (at >= 0 <==> t in AllTokens(rows))
      && (at >= 0 ==> t in n.seen && n.seen[t] == at)
      && (at < 0 ==> (t in n.seen <==> t in s.seen) && (t in s.seen ==> n.seen[t] == s.seen[t]))
    decreases |rows|
  {
    if rows == [] {
    } else {
      LearnKeys(s.seen, rows[0], Place(s, rows[0]));
      LastPlaceIsIndexed(Step(s, rows[0]), rows[1..], t);
    }
  }

  /** Every id and url key of the input ends on exactly one output row: the one that the last row carrying
      it was sent to. */
  ghost predicate Settled(rows: seq<Row>) {
    var out := Fold(START, rows).out;
    forall t, q: nat :: t in AllTokens(rows) && q < |out| ==> (t in Tokens(out[q]) <==> q == LastPlace(START, rows, t))
  }

  lemma {:induction false} FoldTokens(s: State, rows: seq<Row>)
    requires Valid(s)
    ensures forall t :: t in AllTokens(Fold(s, rows).out) ==> t in AllTokens(s.out) || t in AllTokens(rows)
    decreases |rows|
  {
    if rows == [] {
    } else {
      StepTokens(s, rows[0]);
      FoldTokens(Step(s, rows[0]), rows[1..]);
    }
  }

  lemma {:induction false} StepTokens(s: State, r: Row)
    requires Valid(s)
    ensures forall t :: t in AllTokens(Step(s, r).out) ==> t in AllTokens(s.out) || t in Tokens(r)
  {
    var p, out := Place(s, r), Step(s, r).out;
    forall t | t in AllTokens(out) ensures t in AllTokens(s.out) || t in Tokens(r) {
      var k := TokenOwner(out, t);
      if k < |s.out| {
        TokensIn(s.out, k);
        if k == p {
          OverlayTokens(s.out[p], r);
        }
      }
    }
  }

  lemma {:induction false} SettledAt(rows: seq<Row>, q: nat, t: string)
    requires Settled(rows) && q < |Fold(START, rows).out| && t in Tokens(Fold(START, rows).out[q])
    ensures q == LastPlace(START, rows, t)
  {
    TokensIn(Fold(START, rows).out, q);
    FoldTokens(START, rows);
  }

  lemma {:induction false} SettledSeparate(rows: seq<Row>)
    requires Settled(rows)
    ensures Separate(Fold(START, rows).out)
  {
    var out := Fold(START, rows).out;
    forall i, j | 0 <= i < j < |out| ensures Tokens(out[i]) !! Tokens(out[j]) {
      forall t | t in Tokens(out[i]) ensures t !in Tokens(out[j]) {
        SettledAt(rows, i, t);
        if t in Tokens(out[j]) {
          SettledAt(rows, j, t);
        }
      }
    }
  }

  lemma {:induction false} SettledLossless(rows: seq<Row>)
    requires Settled(rows)
    ensures Lossless(rows)
  {
    var s := Fold(START, rows);
    var again := Fold(START, s.out);
    SettledSeparate(rows);
    SeenTokens(START, rows);
    SeenTokens(START, s.out);
    FoldTokens(START, rows);
    forall t | t in AllTokens(rows) ensures t in again.seen && again.seen[t] == s.seen[t] {
      LastPlaceIsIndexed(START, rows, t);
      assert t in Tokens(s.out[s.seen[t]]);
      FoldIndex(START, s.out, s.seen[t], t);
    }
    assert again.seen.Keys == s.seen.Keys;
  }

  lemma {:induction false} LosslessSettled(rows: seq<Row>)
    requires Lossless(rows)
    ensures Settled(rows)
  {
    var s := Fold(START, rows);
    SeenTokens(START, rows);
    SeenTokens(START, s.out);
    forall t, q: nat | t in AllTokens(rows) && q < |s.out|
      ensures t in Tokens(s.out[q]) <==> q == LastPlace(START, rows, t)
    {
      LastPlaceIsIndexed(START, rows, t);
      var k := TokenOwner(s.out, t);
      FoldIndex(START, s.out, k, t);
      if t in Tokens(s.out[q]) {
        FoldIndex(START, s.out, q, t);
      }
    }
  }

  /** Merging in two stages agrees with merging at once, whatever is merged next, exactly when every id
      and url key of the first stage has settled on the row its last carrier was sent to. */
  lemma {:induction false} AssociativeIff(left: seq<Row>, right: seq<Row>)
    ensures (forall more :: Merge(Merge(left, right), more) == Merge(left, right + more)) <==> Settled(left + right)
  {
    MergeAssociativeIff(left, right);
    if Settled(left + right) {
      SettledLossless(left + right);
    } else if Lossless(left + right) {
      LosslessSettled(left + right);
    }
  }
}
