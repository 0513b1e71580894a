/** The evidence reducer: rows are deduplicated by id or url, and a later duplicate is laid
    over the row that was kept, truthy field by truthy field. */
module EvidenceMerge {
  import opened Common
  import opened TextUtil

  datatype Value = Null | Flag(b: bool) | Number(n: int) | Text(s: string)

  predicate Truthy(v: Value) {
    match v
    case Null => false
    case Flag(b) => b
    case Number(n) => n != 0
    case Text(s) => s != ""
  }

  type Row = map<string, Value>

  function TextField(r: Row, field: string): string {
    if field in r && r[field].Text? then r[field].s else ""
  }

  function Id(r: Row): string {
    TextField(r, "id")
  }

  function UrlKey(r: Row): string {
    Lower(DropTrailingChar(TextField(r, "url"), '/'))
  }

  /** The running index: both ids and url keys point at output positions. */
  type Index = map<string, nat>

  datatype State = State(seen: Index, out: seq<Row>)

  const START := State(map[], [])

  function Overlay(kept: Row, item: Row): Row {
    kept + map f | f in item && Truthy(item[f]) :: item[f]
  }

  function Find(seen: Index, r: Row): Option<nat> {
    if Id(r) != "" && Id(r) in seen then Some(seen[Id(r)])
    else if UrlKey(r) != "" && UrlKey(r) in seen then Some(seen[UrlKey(r)])
    else None
  }

  function Learn(seen: Index, r: Row, i: nat): Index {
    var byId := if Id(r) != "" then seen[Id(r) := i] else seen;
    if UrlKey(r) != "" then byId[UrlKey(r) := i] else byId
  }

  predicate Valid(s: State) {
    forall t :: t in s.seen ==> s.seen[t] < |s.out|
  }

  /** Where the next row lands. */
  function Place(s: State, r: Row): nat {
    match Find(s.seen, r) case Some(i) => i case None => |s.out|
  }

  function Step(s: State, r: Row): (s': State)
    requires Valid(s)
    ensures Valid(s') && |s.out| <= |s'.out| <= |s.out| + 1
  {
    var i := Place(s, r);
    State(Learn(s.seen, r, i), if i < |s.out| then s.out[i := Overlay(s.out[i], r)] else s.out + [r])
  }

  function Fold(s: State, rows: seq<Row>): (s': State)
    requires Valid(s)
    ensures Valid(s')
    decreases |rows|
  {
    if rows == [] then s else Fold(Step(s, rows[0]), rows[1..])
  }

  function Merge(left: seq<Row>, right: seq<Row>): seq<Row> {
    Fold(START, left + right).out
  }

  /** One round of the loop. */
  method AddRow(seen: Index, out: seq<Row>, item: Row) returns (seen': Index, out': seq<Row>)
    requires Valid(State(seen, out))
    ensures State(seen', out') == Step(State(seen, out), item)
  {
    var key, urlKey := Id(item), UrlKey(item);
    var idx := |out|;
    if key != "" && key in seen {
      idx := seen[key];
    } else if urlKey != "" && urlKey in seen {
      idx := seen[urlKey];
    }
    if idx < |out| {
      out' := out[idx := Overlay(out[idx], item)];
    } else {
      out' := out + [item];
    }
    seen' := seen;
    if key != "" {
      seen' := seen'[key := idx];
    }
    if urlKey != "" {
      seen' := seen'[urlKey := idx];
    }
  }

  method MergeUniqueEvidence(left: seq<Row>, right: seq<Row>) returns (out: seq<Row>)
    ensures out == Merge(left, right)
  {
    var rows := left + right;
    var seen: Index := map[];
    out := [];
    for k := 0 to |rows|
      invariant Valid(State(seen, out))
      invariant Fold(State(seen, out), rows[k..]) == Fold(START, rows)
    {
      FoldHead(State(seen, out), rows[k..]);
      seen, out := AddRow(seen, out, rows[k]);
    }
  }

  lemma {:induction false} FoldHead(s: State, rows: seq<Row>)
    requires Valid(s) && rows != []
    ensures Fold(s, rows) == Fold(Step(s, rows[0]), rows[1..])
  {
  }

  lemma {:induction false} FoldConcat(s: State, a: seq<Row>, b: seq<Row>)
    requires Valid(s)
    ensures Fold(s, a + b) == Fold(Fold(s, a), b)
    decreases |a|
  {
    if a == [] {
      assert a + b == b;
    } else {
      assert (a + b)[1..] == a[1..] + b;
      FoldConcat(Step(s, a[0]), a[1..], b);
    }
  }

  /* ------------------------------------------------------------------ what every merge keeps */

  /** The output position of every input row. */
  function Places(s: State, rows: seq<Row>): (p: seq<nat>)
    requires Valid(s)
    ensures |p| == |rows|
    decreases |rows|
  {
    if rows == [] then [] else [Place(s, rows[0])] + Places(Step(s, rows[0]), rows[1..])
  }

  /** The rows sent to position `i`, laid over each other in input order. */
  function Gather(base: Option<Row>, rows: seq<Row>, places: seq<nat>, i: nat): Option<Row>
    requires |rows| == |places|
    decreases |rows|
  {
    if rows == [] then base
    else
      var next := if places[0] != i then base
                  else if base.None? then Some(rows[0]) else Some(Overlay(base.value, rows[0]));
      Gather(next, rows[1..], places[1..], i)
  }

  function RowAt(out: seq<Row>, i: nat): Option<Row> {
    if i < |out| then Some(out[i]) else None
  }

  /** Every output row is exactly the overlay, in input order, of the rows placed there. */
  lemma {:induction false} MergeGathers(s: State, rows: seq<Row>, i: nat)
    requires Valid(s)
    ensures RowAt(Fold(s, rows).out, i) == Gather(RowAt(s.out, i), rows, Places(s, rows), i)
    decreases |rows|
  {
    if rows == [] {
    } else {
      var s' := Step(s, rows[0]);
      MergeGathers(s', rows[1..], i);
      assert Places(s, rows)[1..] == Places(s', rows[1..]);
    }
  }

  lemma {:induction false} StepSize(s: State, r: Row)
    requires Valid(s)
    ensures Place(s, r) <= |s.out|
    ensures |Step(s, r).out| == if Place(s, r) < |s.out| then |s.out| else |s.out| + 1
  {
  }

  /** With `n` positions open, each place is an open position or the next new one. */
  predicate OpensInOrder(places: seq<nat>, n: nat)
    decreases |places|
  {
    places == [] ||
    (places[0] <= n && OpensInOrder(places[1..], if places[0] == n then n + 1 else n))
  }

  /** Rows keep their order of first appearance: output positions are opened one by one. */
  lemma {:induction false} PlacesOpenInOrder(s: State, rows: seq<Row>)
    requires Valid(s)
    ensures OpensInOrder(Places(s, rows), |s.out|)
    decreases |rows|
  {
    if rows == [] {
    } else {
      StepSize(s, rows[0]);
      PlacesOpenInOrder(Step(s, rows[0]), rows[1..]);
      assert Places(s, rows)[1..] == Places(Step(s, rows[0]), rows[1..]);
    }
  }

  /** All truthy fields of `r` are present and truthy in `kept`. */
  predicate Carries(kept: Row, r: Row) {
    forall f :: f in r && Truthy(r[f]) ==> f in kept && Truthy(kept[f])
  }

  lemma {:induction false} FoldCarries(s: State, rows: seq<Row>, i: nat)
    requires Valid(s) && i < |s.out|
    ensures |s.out| <= |Fold(s, rows).out| && Carries(Fold(s, rows).out[i], s.out[i])
    decreases |rows|
  {
    if rows == [] {
    } else {
      var s' := Step(s, rows[0]);
      FoldCarries(s', rows[1..], i);
      assert Carries(s'.out[i], s.out[i]);
    }
  }

  lemma {:induction false} StepCarries(s: State, r: Row)
    requires Valid(s)
    ensures Place(s, r) < |Step(s, r).out| && Carries(Step(s, r).out[Place(s, r)], r)
  {
  }

  predicate Carried(out: seq<Row>, at: nat, r: Row) {
    at < |out| && Carries(out[at], r)
  }

  lemma {:induction false} HeadCarried(s: State, r: Row, rest: seq<Row>)
    requires Valid(s)
    ensures Carried(Fold(Step(s, r), rest).out, Place(s, r), r)
  {
    StepCarries(s, r);
    FoldCarries(Step(s, r), rest, Place(s, r));
  }

  lemma {:induction false} PlacesHead(s: State, rows: seq<Row>)
    requires Valid(s) && rows != []
    ensures Places(s, rows) == [Place(s, rows[0])] + Places(Step(s, rows[0]), rows[1..])
  {
  }

  /** No truthy field is ever lost or made falsy, whatever the rows are. */
  lemma {:induction false} MergeCarriesAll(s: State, rows: seq<Row>, k: nat)
    requires Valid(s) && k < |rows|
    ensures Carried(Fold(s, rows).out, Places(s, rows)[k], rows[k])
    decreases |rows|
  {
    var next, rest := Step(s, rows[0]), rows[1..];
    FoldHead(s, rows);
    PlacesHead(s, rows);
    if k == 0 {
      HeadCarried(s, rows[0], rest);
    } else {
      assert Places(s, rows)[k] == Places(next, rest)[k - 1] && rows[k] == rest[k - 1];
      MergeCarriesAll(next, rest, k - 1);
    }
  }

  /** Laying a row over another changes just the fields it has something for: what is null, false, zero or
      empty leaves a field as it was, and does not add one. */
  lemma {:induction false} OverlayExact(kept: Row, item: Row, f: string)
    ensures
      var blank, out := {Null, Flag(false), Number(0), Text("")}, Overlay(kept, item);
      && (f in out <==> f in kept || (f in item && item[f] !in blank))
      && (f in out ==> out[f] == if f in item && item[f] !in blank then item[f] else kept[f])
  {
    assert forall v :: Truthy(v) <==> v !in {Null, Flag(false), Number(0), Text("")};
  }

  /* ------------------------------------------------------------------ one address, one row */

  function Slashes(n: nat): string {
    seq(n, _ => '/')
  }

  lemma {:induction false} DropSlashes(u: string, n: nat)
    requires u != "" && u[|u| - 1] != '/'
    ensures DropTrailingChar(u + Slashes(n), '/') == u
  {
    var s := u + Slashes(n);
    if n == 0 {
      assert s == u;
    } else {
      assert s[|s| - 1] == '/' && s[..|s| - 1] == u + Slashes(n - 1);
      DropSlashes(u, n - 1);
    }
  }

  /** Two rows whose urls differ only in letter case and trailing slashes become one row, whatever their ids. */
  lemma {:induction false} SameAddressIsOneRow(a: Row, b: Row, u: string, v: string, n: nat, m: nat)
    requires TextField(a, "url") == u + Slashes(n) && TextField(b, "url") == v + Slashes(m)
    requires Lower(u) == Lower(v) && u != "" && u[|u| - 1] != '/'
    ensures UrlKey(a) == UrlKey(b) == Lower(u) && Merge([a], [b]) == [Overlay(a, b)]
  {
    assert |u| == |Lower(u)| == |v|;
    assert Lower(u)[|u| - 1] == LowerChar(u[|u| - 1]) && Lower(v)[|u| - 1] == LowerChar(v[|u| - 1]);
    DropSlashes(u, n);
    DropSlashes(v, m);
    var first := Step(START, a);
    assert [a] + [b] == [a, b] && [a, b][1..] == [b] && [b][1..] == [];
    FoldHead(START, [a, b]);
    FoldHead(first, [b]);
    assert first.out == [a] && UrlKey(b) in first.seen;
  }

  /* ------------------------------------------------------------------ fixpoints, exactly */

  function Tokens(r: Row): set<string> {
    {Id(r), UrlKey(r)} - {""}
  }

  function AllTokens(rows: seq<Row>): set<string> {
    if rows == [] then {} else Tokens(rows[0]) + AllTokens(rows[1..])
  }

  /** No two rows share an id or a url key. */
  predicate Separate(rows: seq<Row>) {
    forall i, j :: 0 <= i < j < |rows| ==> Tokens(rows[i]) !! Tokens(rows[j])
  }

  lemma {:induction false} LearnKeys(seen: Index, r: Row, i: nat)
    ensures Learn(seen, r, i).Keys == seen.Keys + Tokens(r)
    ensures forall t :: t in Tokens(r) ==> Learn(seen, r, i)[t] == i
    ensures forall t :: t in seen && t !in Tokens(r) ==> Learn(seen, r, i)[t] == seen[t]
    ensures Find(seen, r).None? <==> Tokens(r) !! seen.Keys
  {
  }

  lemma {:induction false} TokensIn(rows: seq<Row>, k: nat)
    requires k < |rows|
    ensures Tokens(rows[k]) <= AllTokens(rows)
  {
    if k > 0 {
      TokensIn(rows[1..], k - 1);
    }
  }

  lemma {:induction false} TokenOwner(rows: seq<Row>, t: string) returns (k: nat)
    requires t in AllTokens(rows)
    ensures k < |rows| && t in Tokens(rows[k])
  {
    if t in Tokens(rows[0]) {
      k := 0;
    } else {
      k := TokenOwner(rows[1..], t);
      k := k + 1;
    }
  }

  lemma {:induction false} StepAppends(s: State, r: Row)
    requires Valid(s) && Tokens(r) !! s.seen.Keys
    ensures Step(s, r).out == s.out + [r] && Step(s, r).seen.Keys == s.seen.Keys + Tokens(r)
  {
    LearnKeys(s.seen, r, |s.out|);
  }

  lemma {:induction false} ConcatHead(out: seq<Row>, rows: seq<Row>)
    requires rows != []
    ensures out + [rows[0]] + rows[1..] == out + rows
  {
  }

  lemma {:induction false} SeparateHead(rows: seq<Row>)
    requires rows != [] && Separate(rows)
    ensures Separate(rows[1..]) && Tokens(rows[0]) !! AllTokens(rows[1..])
  {
    var rest := rows[1..];
    forall i, j | 0 <= i < j < |rest| ensures Tokens(rest[i]) !! Tokens(rest[j]) {
      assert rest[i] == rows[i + 1] && rest[j] == rows[j + 1];
    }
    forall t | t in AllTokens(rest) ensures t !in Tokens(rows[0]) {
      var k := TokenOwner(rest, t);
      assert rows[k + 1] == rest[k];
    }
  }

  /** A fold appends all of its rows if they clash neither with the index nor with each
      other. */
  lemma {:induction false} FoldAppends(s: State, rows: seq<Row>)
    requires Valid(s) && Separate(rows) && AllTokens(rows) !! s.seen.Keys
    ensures Fold(s, rows).out == s.out + rows
    decreases |rows|
  {
    if rows == [] {
    } else {
      StepAppends(s, rows[0]);
      SeparateHead(rows);
      FoldAppends(Step(s, rows[0]), rows[1..]);
      ConcatHead(s.out, rows);
    }
  }

  /** A row that shares a token with an earlier row or with the index is not appended. */
  lemma {:induction false} FoldShrinks(s: State, rows: seq<Row>, j: nat, t: string)
    requires Valid(s) && j < |rows| && t in Tokens(rows[j])
    requires t in s.seen.Keys + AllTokens(rows[..j])
    ensures |Fold(s, rows).out| < |s.out| + |rows|
    decreases |rows|
  {
    var s' := Step(s, rows[0]);
    LearnKeys(s.seen, rows[0], Place(s, rows[0]));
    if j == 0 {
      FoldLength(s', rows[1..]);
    } else {
      assert rows[..j][1..] == rows[1..][..j - 1];
      FoldShrinks(s', rows[1..], j - 1, t);
    }
  }

  lemma {:induction false} FoldLength(s: State, rows: seq<Row>)
    requires Valid(s)
    ensures |Fold(s, rows).out| <= |s.out| + |rows|
    decreases |rows|
  {
    if rows == [] {
    } else {
      FoldLength(Step(s, rows[0]), rows[1..]);
    }
  }

  /** Merging a list with nothing gives the list back exactly when no two of its rows share an
      id or a url key. */
  lemma {:induction false} MergeFixpointIff(rows: seq<Row>)
    ensures Merge(rows, []) == rows <==> Separate(rows)
  {
    assert rows + [] == rows;
    if Separate(rows) {
      FoldAppends(START, rows);
    } else {
      var i, j :| 0 <= i < j < |rows| && !(Tokens(rows[i]) !! Tokens(rows[j]));
      var t :| t in Tokens(rows[i]) && t in Tokens(rows[j]);
      TokensIn(rows[..j], i);
      FoldShrinks(START, rows, j, t);
    }
  }

  /* ------------------------------------------------------------------ associativity, exactly */

  /** The index after folding `rows`. */
  function Seen(rows: seq<Row>): Index {
    Fold(START, rows).seen
  }

  /** The merged list still holds everything the running index knows: no merge has made two
      output rows clash, and no id or url key has been replaced by another. */
  predicate Lossless(rows: seq<Row>) {
    var merged := Fold(START, rows).out;
    Separate(merged) && Seen(merged) == Seen(rows)
  }

  lemma {:induction false} SeenTokens(s: State, rows: seq<Row>)
    requires Valid(s)
    ensures Fold(s, rows).seen.Keys == s.seen.Keys + AllTokens(rows)
    decreases |rows|
  {
    if rows == [] {
    } else {
      LearnKeys(s.seen, rows[0], Place(s, rows[0]));
      SeenTokens(Step(s, rows[0]), rows[1..]);
    }
  }

  lemma {:induction false} NoEmptyToken(rows: seq<Row>)
    ensures "" !in AllTokens(rows)
  {
    if rows == [] {
    } else {
      NoEmptyToken(rows[1..]);
    }
  }

  /** A row that tells two different indexes apart: it carries `t` as its id, and a mark the
      row `r` does not have. */
  function Probe(t: string, r: Row): Row {
    map["id" := Text(t), "mark" := Text(TextField(r, "mark") + "x")]
  }

  lemma {:induction false} ProbeFound(t: string, r: Row, seen: Index)
    requires t != ""
    ensures Find(seen, Probe(t, r)) == if t in seen then Some(seen[t]) else None
    ensures Overlay(r, Probe(t, r)) != r
  {
    var p := Probe(t, r);
    assert TextField(p, "url") == "";
    assert Id(p) == t && UrlKey(p) == "";
    assert Overlay(r, p)["mark"] == Text(TextField(r, "mark") + "x");
    if "mark" in r && r["mark"].Text? {
      assert |TextField(r, "mark") + "x"| == |r["mark"].s| + 1;
    }
  }

  lemma {:induction false} FoldOne(s: State, r: Row)
    requires Valid(s)
    ensures Fold(s, [r]) == Step(s, r)
  {
    assert [r][1..] == [];
  }

  lemma {:induction false} ProbeTellsApart(s: State, s': State, t: string) returns (p: Row)
    requires Valid(s) && Valid(s') && s.out == s'.out && t != ""
    requires (t in s.seen) != (t in s'.seen) || (t in s.seen && s.seen[t] != s'.seen[t])
    ensures Fold(s, [p]).out != Fold(s', [p]).out
  {
    var i := if t in s.seen then s.seen[t] else if t in s'.seen then s'.seen[t] else 0;
    p := Probe(t, s.out[i]);
    ProbeFound(t, s.out[i], s.seen);
    ProbeFound(t, s.out[i], s'.seen);
    var a, b := Step(s, p).out, Step(s', p).out;
    FoldOne(s, p);
    FoldOne(s', p);
    if t in s.seen && t in s'.seen {
      assert a[i] != b[i];
    } else {
      assert |a| != |b|;
    }
  }

  /** Both ways of merging `more` continue from the same rows, with two indexes. */
  lemma {:induction false} TwoStages(left: seq<Row>, right: seq<Row>, more: seq<Row>)
    ensures
      var s := Fold(START, left + right);
      && Merge(Merge(left, right), more) == Fold(Fold(START, s.out), more).out
      && Merge(left, right + more) == Fold(s, more).out
  {
    var rows := left + right;
    assert left + (right + more) == rows + more;
    FoldConcat(START, rows, more);
    FoldConcat(START, Fold(START, rows).out, more);
  }

  lemma {:induction false} LosslessAgrees(left: seq<Row>, right: seq<Row>, more: seq<Row>)
    requires Lossless(left + right)
    ensures Merge(Merge(left, right), more) == Merge(left, right + more)
  {
    TwoStages(left, right, more);
    var s := Fold(START, left + right);
    FoldAppends(START, s.out);
    assert Fold(START, s.out) == s;
  }

  lemma {:induction false} LossyDisagrees(left: seq<Row>, right: seq<Row>) returns (more: seq<Row>)
    requires !Lossless(left + right)
    ensures Merge(Merge(left, right), more) != Merge(left, right + more)
  {
    var s := Fold(START, left + right);
    var s' := Fold(START, s.out);
    if Separate(s.out) {
      FoldAppends(START, s.out);
      var t := IndexDifference(s.seen, s'.seen);
      SeenTokens(START, left + right);
      SeenTokens(START, s.out);
      NoEmptyToken(left + right);
      NoEmptyToken(s.out);
      var p := ProbeTellsApart(s, s', t);
      more := [p];
    } else {
      more := [];
      MergeFixpointIff(s.out);
      assert s.out + [] == s.out;
    }
    TwoStages(left, right, more);
  }

  lemma {:induction false} IndexDifference(a: Index, b: Index) returns (t: string)
    requires a != b
    ensures (t in a) != (t in b) || (t in a && a[t] != b[t])
  {
    if a.Keys == b.Keys {
      t :| t in a && a[t] != b[t];
    } else {
      t :| (t in a) != (t in b);
    }
  }

  /** Merging in two stages agrees with merging at once, whatever is merged next, exactly when
      the first stage was lossless. */
  lemma {:induction false} MergeAssociativeIff(left: seq<Row>, right: seq<Row>)
    ensures (forall more :: Merge(Merge(left, right), more) == Merge(left, right + more))
       <==> Lossless(left + right)
  {
    if Lossless(left + right) {
      forall more ensures Merge(Merge(left, right), more) == Merge(left, right + more) {
        LosslessAgrees(left, right, more);
      }
    } else {
      var more := LossyDisagrees(left, right);
    }
  }
}
