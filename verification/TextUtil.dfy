/** The few string operations the modelled code relies on. Letters and white space are ASCII. */
module TextUtil {

  function LowerChar(c: char): char {
    if 'A' <= c <= 'Z' then c - 'A' + 'a' else c
  }

  function Lower(s: string): string {
    seq(|s|, i requires 0 <= i < |s| => LowerChar(s[i]))
  }

  /** Drop every trailing occurrence of `c`. */
  function DropTrailingChar(s: string, c: char): string {
    if |s| > 0 && s[|s| - 1] == c then DropTrailingChar(s[..|s| - 1], c) else s
  }

  /** Drop every trailing character that is in `cs`. */
  function DropTrailing(s: string, cs: set<char>): string {
    if |s| > 0 && s[|s| - 1] in cs then DropTrailing(s[..|s| - 1], cs) else s
  }

  function DropLeading(s: string, cs: set<char>): string {
    if |s| > 0 && s[0] in cs then DropLeading(s[1..], cs) else s
  }

  /** Python's `strip(chars)`. */
  function Trim(s: string, cs: set<char>): string {
    DropTrailing(DropLeading(s, cs), cs)
  }

  const SPACES: set<char> := {' ', '\t', '\n', '\r', '\U{000B}', '\U{000C}'}

  function Strip(s: string): string {
    Trim(s, SPACES)
  }

  /** Python's `split(c)`: always at least one piece. */
  function Split(s: string, c: char): (pieces: seq<string>)
    ensures |pieces| >= 1
  {
    if s == "" then [""] else Attach(s[0], c, Split(s[1..], c))
  }

  /** One more character in front of the pieces. */
  function Attach(h: char, c: char, pieces: seq<string>): seq<string>
    requires |pieces| >= 1
  {
    if h == c then [""] + pieces else [[h] + pieces[0]] + pieces[1..]
  }

  function Join(pieces: seq<string>, sep: string): string {
    if pieces == [] then ""
    else if |pieces| == 1 then pieces[0]
    else pieces[0] + sep + Join(pieces[1..], sep)
  }

  /** `t` occurs in `s`. */
  predicate Contains(s: string, t: string)
    decreases |s|
  {
    |s| >= |t| && (s[..|t|] == t || (s != "" && Contains(s[1..], t)))
  }

  /* ------------------------------------------------------------------ trimming */

  /** The first and the last character stay. */
  predicate Firm(s: string, cs: set<char>) {
    s != "" ==> s[0] !in cs && s[|s| - 1] !in cs
  }

  lemma {:induction false} FirmTrim(s: string, cs: set<char>)
    requires Firm(s, cs)
    ensures Trim(s, cs) == s
  {
  }

  lemma {:induction false} DropLeadingPart(s: string, cs: set<char>) returns (n: nat)
    ensures n <= |s| && DropLeading(s, cs) == s[n..]
    ensures n < |s| ==> s[n] !in cs
    decreases |s|
  {
    if |s| > 0 && s[0] in cs {
      n := DropLeadingPart(s[1..], cs);
      assert s[1..][n..] == s[n + 1..];
      n := n + 1;
    } else {
      n := 0;
    }
  }

  lemma {:induction false} DropTrailingPart(s: string, cs: set<char>) returns (n: nat)
    ensures n <= |s| && DropTrailing(s, cs) == s[..n]
    ensures n > 0 ==> s[n - 1] !in cs
    decreases |s|
  {
    n := |s|;
    if |s| > 0 && s[|s| - 1] in cs {
      n := DropTrailingPart(s[..|s| - 1], cs);
      assert s[..|s| - 1][..n] == s[..n];
    }
  }

  /** A trimmed string is firm, and holds only characters of the original. */
  lemma {:induction false} TrimFirm(s: string, cs: set<char>)
    ensures Firm(Trim(s, cs), cs)
    ensures forall c :: c in Trim(s, cs) ==> c in s
  {
    var n := DropLeadingPart(s, cs);
    var t := s[n..];
    var m := DropTrailingPart(t, cs);
    assert Trim(s, cs) == t[..m];
    if m > 0 {
      assert t[..m][0] == s[n];
    }
  }

  /** Trimming undoes blank padding. */
  lemma {:induction false} TrimPadded(left: string, s: string, right: string, cs: set<char>)
    requires forall c :: c in left ==> c in cs
    requires forall c :: c in right ==> c in cs
    requires Firm(s, cs)
    ensures Trim(left + s + right, cs) == s
    decreases |left| + |right|
  {
    var all := left + s + right;
    if left != "" {
      assert all[0] == left[0] && all[1..] == left[1..] + s + right;
      TrimPadded(left[1..], s, right, cs);
    } else if s == "" {
      assert all == right;
      TrimBlank(right, cs);
    } else if right != "" {
      assert all == s + right;
      DropTrailingPad(s, right, cs);
    } else {
      assert all == s;
      FirmTrim(s, cs);
    }
  }

  lemma {:induction false} TrimBlank(s: string, cs: set<char>)
    requires forall c :: c in s ==> c in cs
    ensures Trim(s, cs) == ""
    decreases |s|
  {
    if s == "" {
    } else {
      TrimBlank(s[1..], cs);
    }
  }

  lemma {:induction false} DropTrailingPad(s: string, right: string, cs: set<char>)
    requires forall c :: c in right ==> c in cs
    requires Firm(s, cs) && s != ""
    ensures DropTrailing(s + right, cs) == s
    decreases |right|
  {
    if right == "" {
      assert s + right == s;
    } else {
      assert (s + right)[..|s + right| - 1] == s + right[..|right| - 1];
      assert (s + right)[|s + right| - 1] == right[|right| - 1];
      DropTrailingPad(s, right[..|right| - 1], cs);
    }
  }

  /* ------------------------------------------------------------------ splitting */

  lemma {:induction false} SplitNone(s: string, c: char)
    requires c !in s
    ensures Split(s, c) == [s]
  {
    if s == "" {
    } else {
      assert s[0] in s;
      SplitNone(s[1..], c);
      assert [s[0]] + s[1..] == s;
    }
  }

  lemma {:induction false} SplitAt(a: string, c: char, b: string)
    requires c !in a
    ensures Split(a + [c] + b, c) == [a] + Split(b, c)
  {
    var s := a + [c] + b;
    if a == "" {
      assert s == [c] + b;
      assert s[1..] == b;
    } else {
      assert a[0] in a;
      assert s[1..] == a[1..] + [c] + b;
      SplitAt(a[1..], c, b);
      assert [a[0]] + a[1..] == a;
      assert s[0] == a[0];
    }
  }

  lemma {:induction false} AttachConcat(h: char, c: char, some: seq<string>, more: seq<string>)
    requires |some| >= 1
    ensures Attach(h, c, some + more) == Attach(h, c, some) + more
  {
    assert (some + more)[0] == some[0] && (some + more)[1..] == some[1..] + more;
  }

  /** Splitting around any occurrence of the separator. */
  lemma {:induction false} SplitConcat(a: string, c: char, b: string)
    ensures Split(a + [c] + b, c) == Split(a, c) + Split(b, c)
  {
    if a == "" {
      SplitAt("", c, b);
    } else {
      var s := a + [c] + b;
      assert s[1..] == a[1..] + [c] + b && s[0] == a[0];
      SplitConcat(a[1..], c, b);
      AttachConcat(a[0], c, Split(a[1..], c), Split(b, c));
    }
  }
}
