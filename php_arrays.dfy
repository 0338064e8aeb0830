/**
 * The PHP array built-ins the keyword normaliser relies on, restricted to
 * list arrays (keys 0 .. n-1), which is the only shape they meet there:
 * the union operator `+`, `array_filter` without a callback,
 * `array_unique` and `implode`.
 */
module PhpArrays {

  /** `$k + $r` on two lists: union by key, the entries of `$r` whose keys
      already occur in `$k` are dropped. */
  function Plus<T>(k: seq<T>, r: seq<T>): (u: seq<T>)
    ensures |u| == if |r| > |k| then |r| else |k|
    ensures u[..|k|] == k
    ensures forall i :: |k| <= i < |u| ==> u[i] == r[i]
    ensures forall x :: x in u ==> x in k || x in r
  {
    if |r| <= |k| then k else k + r[|k|..]
  }

  /** PHP's truthiness, for strings: only "" and "0" are falsy. */
  predicate Falsy(s: string) {
    s == "" || s == "0"
  }

  /** `wp_list_pluck( $list, $field )`: that field of every record, in order. */
  function Pluck<T>(list: seq<T>, field: T -> string): (r: seq<string>)
    ensures |r| == |list|
    ensures forall i :: 0 <= i < |list| ==> r[i] == field(list[i])
  {
    if list == [] then [] else [field(list[0])] + Pluck(list[1..], field)
  }

  /** `array_filter($s)`: drops the falsy entries, keeps the others in order. */
  function FilterFalsy(s: seq<string>): (r: seq<string>)
    ensures |r| <= |s|
    ensures forall x :: x in r <==> x in s && !Falsy(x)
  {
    if s == [] then []
    else
      var rest := FilterFalsy(s[..|s| - 1]);
      var x := s[|s| - 1];
      assert s == s[..|s| - 1] + [x];
      if Falsy(x) then rest else rest + [x]
  }

  /** Filtering distributes over concatenation, so the relative order of
      the kept entries is the order they had in the input. */
  lemma {:induction false} FilterFalsyAppend(a: seq<string>, b: seq<string>)
    ensures FilterFalsy(a + b) == FilterFalsy(a) + FilterFalsy(b)
    decreases |b|
  {
    if b == [] {
      assert a + b == a;
    } else {
      var b' := b[..|b| - 1];
      assert (a + b)[..|a + b| - 1] == a + b';
      FilterFalsyAppend(a, b');
    }
  }

  ghost predicate NoDuplicates<T>(s: seq<T>) {
    forall i, j :: 0 <= i < j < |s| ==> s[i] != s[j]
  }

  /** `array_unique($s)`: keeps the first occurrence of every value, in the
      order of those first occurrences. */
  function Unique(s: seq<string>): (r: seq<string>)
    ensures NoDuplicates(r)
    ensures forall x :: x in r <==> x in s
    ensures |r| <= |s|
  {
    if s == [] then []
    else
      var u := Unique(s[..|s| - 1]);
      var x := s[|s| - 1];
      assert s == s[..|s| - 1] + [x];
      if x in u then u else u + [x]
  }

  /** The index of the first occurrence of `x` in `s`. */
  function FirstIndex(s: seq<string>, x: string): (r: nat)
    requires x in s
    ensures r < |s| && s[r] == x && x !in s[..r]
  {
    if s[0] == x then 0
    else
      var r := 1 + FirstIndex(s[1..], x);
      assert s[..r] == [s[0]] + s[1..][..r - 1];
      r
  }

  lemma FirstIndexUnique(s: seq<string>, x: string, p: nat)
    requires p < |s| && s[p] == x && x !in s[..p]
    ensures FirstIndex(s, x) == p
  {
  }

  /** The entries `array_unique` keeps appear in the order in which their
      values first occur in the input. */
  lemma {:induction false} UniqueKeepsFirstOccurrenceOrder(s: seq<string>)
    ensures forall i, j :: 0 <= i < j < |Unique(s)| ==>
      FirstIndex(s, Unique(s)[i]) < FirstIndex(s, Unique(s)[j])
  {
    if s != [] {
      var s' := s[..|s| - 1];
      var x := s[|s| - 1];
      assert s == s' + [x];
      UniqueKeepsFirstOccurrenceOrder(s');
      var u := Unique(s');
      forall y | y in s'
        ensures FirstIndex(s, y) == FirstIndex(s', y)
      {
        var p := FirstIndex(s', y);
        assert s[..p] == s'[..p];
        FirstIndexUnique(s, y, p);
      }
      if x !in u {
        assert x !in s';
        assert s[..|s'|] == s';
        FirstIndexUnique(s, x, |s'|);
      }
    }
  }

  /** `implode($sep, $parts)`. */
  function Join(sep: string, parts: seq<string>): string {
    if parts == [] then ""
    else if |parts| == 1 then parts[0]
    else parts[0] + sep + Join(sep, parts[1..])
  }

  /** The index of the first `c` at or after `k`, or `|s|` when there is none. */
  function IndexFrom(s: string, k: nat, c: char): (r: nat)
    requires k <= |s|
    ensures k <= r <= |s|
    ensures c !in s[k..r]
    ensures r < |s| ==> s[r] == c
    decreases |s| - k
  {
    if k == |s| || s[k] == c then k
    else
      var r := IndexFrom(s, k + 1, c);
      assert s[k..r] == [s[k]] + s[k + 1..r];
      r
  }

  /** Any position meeting `IndexFrom`'s postcondition is the one it returns. */
  lemma IndexFromUnique(s: string, k: nat, c: char, p: nat)
    requires k <= p <= |s|
    requires c !in s[k..p]
    requires p < |s| ==> s[p] == c
    ensures IndexFrom(s, k, c) == p
  {
  }

  /** A slice that spells `a + b` spells `a`, then `b`. */
  lemma SliceSplit<T>(s: seq<T>, i: nat, a: seq<T>, b: seq<T>)
    requires i + |a| + |b| <= |s| && s[i..i + |a| + |b|] == a + b
    ensures s[i..i + |a|] == a && s[i + |a|..i + |a| + |b|] == b
  {
    assert s[i..i + |a|] == (a + b)[..|a|];
    assert s[i + |a|..i + |a| + |b|] == (a + b)[|a|..];
  }

  lemma SliceJoin<T>(s: seq<T>, i: nat, j: nat, k: nat)
    requires i <= j <= k <= |s|
    ensures s[i..k] == s[i..j] + s[j..k]
  {
  }

  /** Splitting a blob at every newline, the inverse of joining with "\n". */
  function SplitLines(s: string): (r: seq<string>)
    ensures |r| > 0
    decreases |s|
  {
    var i := IndexFrom(s, 0, '\n');
    if i == |s| then [s] else [s[..i]] + SplitLines(s[i + 1..])
  }

  /** A list of non-empty, newline-free keywords survives being joined into
      one blob: splitting the blob at its newlines gives the list back. */
  lemma {:induction false} SplitJoin(parts: seq<string>)
    requires forall i :: 0 <= i < |parts| ==> '\n' !in parts[i]
    ensures parts == [] ==> Join("\n", parts) == ""
    ensures parts != [] ==> SplitLines(Join("\n", parts)) == parts
  {
    if |parts| == 1 {
      assert parts[0][0..|parts[0]|] == parts[0];
    } else if |parts| > 1 {
      var p := parts[0];
      var rest := Join("\n", parts[1..]);
      var s := p + "\n" + rest;
      assert s[0..|p|] == p;
      IndexFromUnique(s, 0, '\n', |p|);
      assert s[..|p|] == p;
      assert s[|p| + 1..] == rest;
      SplitJoin(parts[1..]);
    }
  }
}
