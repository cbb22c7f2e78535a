/** The decoded init-data payload and the data-check string signed by
    Telegram: every pair except `hash`, sorted by key, rendered as
    `key=value` and joined by single newlines. */
module DataCheck {

  import opened Values

  /** One decoded `key=value` pair of the query string. */
  datatype Param = Param(key: string, value: string)

  /** `URLSearchParams.get(k)`: the value of the FIRST pair with key `k`. */
  function Get(ps: seq<Param>, k: string): Option<string>
  {
    if ps == [] then None
    else if ps[0].key == k then Some(ps[0].value)
    else Get(ps[1..], k)
  }

  /** What `get` finds is the first pair of the payload with that key, and
      it finds nothing only when no pair has that key. */
  lemma {:induction false} GetFinds(ps: seq<Param>, k: string)
    ensures Get(ps, k).Some? ==> Param(k, Get(ps, k).value) in ps
    ensures Get(ps, k).Some? ==> exists i :: 0 <= i < |ps| && ps[i] == Param(k, Get(ps, k).value)
                                             && forall j :: 0 <= j < i ==> ps[j].key != k
    ensures Get(ps, k).None? <==> forall i :: 0 <= i < |ps| ==> ps[i].key != k
  {
    if ps != [] {
      if ps[0].key == k {
        assert ps[0] == Param(k, Get(ps, k).value);
      } else {
        GetFinds(ps[1..], k);
        assert forall i :: 1 <= i < |ps| ==> ps[i] == ps[1..][i - 1];
        if Get(ps, k).Some? {
          var i :| 0 <= i < |ps[1..]| && ps[1..][i] == Param(k, Get(ps, k).value)
                   && forall j :: 0 <= j < i ==> ps[1..][j].key != k;
          assert ps[i + 1] == Param(k, Get(ps, k).value);
          assert forall j :: 0 <= j < i + 1 ==> ps[j].key != k;
        }
      }
    }
  }

  /** `URLSearchParams.delete(k)`: drops EVERY pair with key `k`, keeping the order of the rest. */
  function WithoutKey(ps: seq<Param>, k: string): seq<Param>
  {
    if ps == [] then []
    else (if ps[0].key == k then [] else [ps[0]]) + WithoutKey(ps[1..], k)
  }

  /** `delete` keeps exactly the pairs with another key. */
  lemma {:induction false} WithoutKeyMembers(ps: seq<Param>, k: string)
    ensures forall p :: p in WithoutKey(ps, k) <==> p in ps && p.key != k
  {
    if ps != [] {
      WithoutKeyMembers(ps[1..], k);
      assert ps == [ps[0]] + ps[1..];
    }
  }

  /** No key occurs twice. */
  ghost predicate DistinctKeys(ps: seq<Param>)
  {
    forall i, j :: 0 <= i < j < |ps| ==> ps[i].key != ps[j].key
  }

  // ---------------------------------------------------------------- key order

  /** Lexicographic order on keys by code point (standing in for `localeCompare`). */
  predicate KeyLe(a: string, b: string)
  {
    if a == [] then true
    else if b == [] then false
    else if a[0] != b[0] then a[0] < b[0]
    else KeyLe(a[1..], b[1..])
  }

  lemma {:induction false} KeyLeTotal(a: string, b: string)
    ensures KeyLe(a, b) || KeyLe(b, a)
  {
    if a != [] && b != [] && a[0] == b[0] {
      KeyLeTotal(a[1..], b[1..]);
    }
  }

  lemma {:induction false} KeyLeAntisymmetric(a: string, b: string)
    requires KeyLe(a, b) && KeyLe(b, a)
    ensures a == b
  {
    if a != [] && b != [] {
      KeyLeAntisymmetric(a[1..], b[1..]);
      assert a == [a[0]] + a[1..] && b == [b[0]] + b[1..];
    }
  }

  lemma {:induction false} KeyLeTransitive(a: string, b: string, c: string)
    requires KeyLe(a, b) && KeyLe(b, c)
    ensures KeyLe(a, c)
  {
    if a != [] && b != [] && c != [] && a[0] == b[0] == c[0] {
      KeyLeTransitive(a[1..], b[1..], c[1..]);
    }
  }

  // ---------------------------------------------------------------- sorting

  ghost predicate Sorted(ps: seq<Param>)
  {
    forall i, j :: 0 <= i < j < |ps| ==> KeyLe(ps[i].key, ps[j].key)
  }

  /** Places `p` before the first pair whose key is not below it, so pairs
      with equal keys keep their original order (`Array.prototype.sort` is stable). */
  function Insert(p: Param, sorted: seq<Param>): seq<Param>
  {
    if sorted == [] || KeyLe(p.key, sorted[0].key) then [p] + sorted
    else [sorted[0]] + Insert(p, sorted[1..])
  }

  /** `.sort(([a], [b]) => a.localeCompare(b))`, as a stable insertion sort. */
  function SortByKey(ps: seq<Param>): seq<Param>
  {
    if ps == [] then [] else Insert(ps[0], SortByKey(ps[1..]))
  }

  lemma {:induction false} InsertCorrect(p: Param, s: seq<Param>)
    requires Sorted(s)
    ensures Sorted(Insert(p, s))
    ensures multiset(Insert(p, s)) == multiset(s) + multiset{p}
  {
    if s == [] || KeyLe(p.key, s[0].key) {
      var r := [p] + s;
      forall i, j | 0 <= i < j < |r| ensures KeyLe(r[i].key, r[j].key) {
        if i == 0 && j > 1 {
          KeyLeTransitive(p.key, s[0].key, s[j - 1].key);
        }
      }
    } else {
      var t := Insert(p, s[1..]);
      InsertCorrect(p, s[1..]);
      assert s == [s[0]] + s[1..];
      KeyLeTotal(p.key, s[0].key);
      var r := [s[0]] + t;
      forall i, j | 0 <= i < j < |r| ensures KeyLe(r[i].key, r[j].key) {
        if i == 0 {
          assert r[j] in multiset(t);
          if r[j] != p {
            assert r[j] in s[1..];
            var k :| 0 <= k < |s[1..]| && s[1..][k] == r[j];
            assert s[k + 1] == r[j];
          }
        }
      }
    }
  }

  lemma {:induction false} SortByKeyCorrect(ps: seq<Param>)
    ensures Sorted(SortByKey(ps))
    ensures multiset(SortByKey(ps)) == multiset(ps)
  {
    if ps != [] {
      SortByKeyCorrect(ps[1..]);
      InsertCorrect(ps[0], SortByKey(ps[1..]));
      assert ps == [ps[0]] + ps[1..];
    }
  }

  /** The pairs with key `k`, in payload order. */
  function WithKey(ps: seq<Param>, k: string): seq<Param>
  {
    if ps == [] then [] else (if ps[0].key == k then [ps[0]] else []) + WithKey(ps[1..], k)
  }

  /** `Insert` passes only pairs with keys other than `p`'s, so among the
      pairs of any one key `p` comes first. */
  lemma {:induction false} InsertKeepsKeyOrder(p: Param, s: seq<Param>, k: string)
    ensures WithKey(Insert(p, s), k) == (if p.key == k then [p] else []) + WithKey(s, k)
  {
    if s == [] || KeyLe(p.key, s[0].key) {
      assert ([p] + s)[1..] == s;
    } else {
      KeyLeTotal(p.key, p.key);
      assert s[0].key != p.key;
      InsertKeepsKeyOrder(p, s[1..], k);
      assert ([s[0]] + Insert(p, s[1..]))[1..] == Insert(p, s[1..]);
    }
  }

  /** The sort is stable: pairs with equal keys keep their payload order,
      which decides the data-check string when a key other than `hash` repeats. */
  lemma {:induction false} SortByKeyStable(ps: seq<Param>, k: string)
    ensures WithKey(SortByKey(ps), k) == WithKey(ps, k)
  {
    if ps != [] {
      SortByKeyStable(ps[1..], k);
      InsertKeepsKeyOrder(ps[0], SortByKey(ps[1..]), k);
    }
  }

  /** When keys are distinct, a sorted arrangement of a collection of pairs is unique. */
  lemma {:induction false} SortedUnique(a: seq<Param>, b: seq<Param>)
    requires Sorted(a) && Sorted(b) && DistinctKeys(a)
    requires multiset(a) == multiset(b)
    ensures a == b
    decreases |a|
  {
    if a == [] {
      assert |multiset(b)| == 0;
    } else {
      SameHead(a, b);
      TailMultiset(a);
      TailMultiset(b);
      SortedTail(a);
      SortedTail(b);
      SortedUnique(a[1..], b[1..]);
    }
  }

  lemma TailMultiset(a: seq<Param>)
    requires a != []
    ensures multiset(a[1..]) == multiset(a) - multiset{a[0]}
  {
    assert a == [a[0]] + a[1..];
  }

  lemma SortedTail(a: seq<Param>)
    requires Sorted(a) && a != []
    ensures Sorted(a[1..])
    ensures DistinctKeys(a) ==> DistinctKeys(a[1..])
  {
    forall i, j | 0 <= i < j < |a[1..]| ensures KeyLe(a[1..][i].key, a[1..][j].key) {
      assert a[1..][i] == a[i + 1] && a[1..][j] == a[j + 1];
    }
    if DistinctKeys(a) {
      forall i, j | 0 <= i < j < |a[1..]| ensures a[1..][i].key != a[1..][j].key {
        assert a[1..][i] == a[i + 1] && a[1..][j] == a[j + 1];
      }
    }
  }

  /** Both sorted arrangements start with the least pair. */
  lemma SameHead(a: seq<Param>, b: seq<Param>)
    requires Sorted(a) && Sorted(b) && DistinctKeys(a)
    requires multiset(a) == multiset(b) && a != []
    ensures b != [] && a[0] == b[0]
  {
    assert a[0] in multiset(b);
    assert b != [];
    assert b[0] in multiset(a);
    var i :| 0 <= i < |a| && a[i] == b[0];
    var j :| 0 <= j < |b| && b[j] == a[0];
    if i != 0 {
      assert KeyLe(a[0].key, b[0].key);
      assert j != 0 ==> KeyLe(b[0].key, a[0].key);
      if j != 0 {
        KeyLeAntisymmetric(a[0].key, b[0].key);
        assert false;
      }
    }
  }

  // ---------------------------------------------------------------- rendering

  function Render(p: Param): string
  {
    p.key + "=" + p.value
  }

  function RenderAll(ps: seq<Param>): (lines: seq<string>)
    ensures |lines| == |ps|
    ensures forall i :: 0 <= i < |ps| ==> lines[i] == Render(ps[i])
  {
    seq(|ps|, i requires 0 <= i < |ps| => Render(ps[i]))
  }

  /** `.join('\n')`. */
  function Join(lines: seq<string>): string
  {
    if |lines| == 0 then ""
    else if |lines| == 1 then lines[0]
    else lines[0] + "\n" + Join(lines[1..])
  }

  /** The message that Telegram signs: every pair but `hash`, sorted by key,
      one `key=value` per line. */
  function DataCheckString(ps: seq<Param>): string
  {
    Join(RenderAll(SortByKey(WithoutKey(ps, "hash"))))
  }

  // ---------------------------------------------------------------- reading back

  /** Splits at every newline; the result always has at least one line. */
  function Split(s: string): (lines: seq<string>)
    ensures |lines| >= 1
  {
    if s == [] then [""]
    else
      var rest := Split(s[1..]);
      if s[0] == '\n' then [""] + rest
      else [[s[0]] + rest[0]] + rest[1..]
  }

  /** Splits a line at its first `=`. */
  function SplitAtEquals(line: string): Param
  {
    if line == [] then Param("", "")
    else if line[0] == '=' then Param("", line[1..])
    else
      var p := SplitAtEquals(line[1..]);
      Param([line[0]] + p.key, p.value)
  }

  /** Recovers the pairs from a data-check string. */
  function ReadDataCheck(s: string): seq<Param>
  {
    if s == "" then []
    else
      var lines := Split(s);
      seq(|lines|, i requires 0 <= i < |lines| => SplitAtEquals(lines[i]))
  }

  /** Pairs whose rendering cannot be confused: keys have no `=` or newline, values no newline. */
  ghost predicate Unambiguous(ps: seq<Param>)
  {
    forall p :: p in ps ==> '=' !in p.key && '\n' !in p.key && '\n' !in p.value
  }

  lemma {:induction false} SplitSingle(a: string)
    requires '\n' !in a
    ensures Split(a) == [a]
  {
    if a != [] {
      SplitSingle(a[1..]);
      assert a == [a[0]] + a[1..];
    }
  }

  lemma {:induction false} SplitAppend(a: string, b: string)
    requires '\n' !in a
    ensures Split(a + "\n" + b) == [a] + Split(b)
  {
    var s := a + "\n" + b;
    if a == [] {
      assert s[1..] == b;
    } else {
      assert s[1..] == a[1..] + "\n" + b;
      SplitAppend(a[1..], b);
      assert a == [a[0]] + a[1..];
    }
  }

  /** Splitting undoes joining, for newline-free lines. */
  lemma {:induction false} SplitJoin(lines: seq<string>)
    requires |lines| >= 1
    requires forall i :: 0 <= i < |lines| ==> '\n' !in lines[i]
    ensures Split(Join(lines)) == lines
  {
    if |lines| == 1 {
      SplitSingle(lines[0]);
    } else {
      SplitJoin(lines[1..]);
      SplitAppend(lines[0], Join(lines[1..]));
      assert lines == [lines[0]] + lines[1..];
    }
  }

  lemma {:induction false} SplitAtEqualsRender(p: Param)
    requires '=' !in p.key
    ensures SplitAtEquals(Render(p)) == p
    decreases |p.key|
  {
    var line := Render(p);
    if p.key != [] {
      assert line[1..] == Render(Param(p.key[1..], p.value));
      SplitAtEqualsRender(Param(p.key[1..], p.value));
      assert p.key == [p.key[0]] + p.key[1..];
    } else {
      assert line[1..] == p.value;
    }
  }

  lemma {:induction false} JoinNonEmpty(lines: seq<string>)
    requires |lines| >= 1 && lines[0] != ""
    ensures Join(lines) != ""
  {
    if |lines| > 1 {
      assert Join(lines)[0] == lines[0][0];
    }
  }

  /** The data-check string determines the signed pairs: reading it back
      gives exactly the sorted pairs that were rendered. */
  lemma ReadDataCheckString(ps: seq<Param>)
    requires Unambiguous(ps)
    ensures ReadDataCheck(DataCheckString(ps)) == SortByKey(WithoutKey(ps, "hash"))
  {
    var sorted := SortByKey(WithoutKey(ps, "hash"));
    SortByKeyCorrect(WithoutKey(ps, "hash"));
    var lines := RenderAll(sorted);
    WithoutKeyMembers(ps, "hash");
    forall i | 0 <= i < |sorted|
      ensures '\n' !in lines[i] && '=' !in sorted[i].key
    {
      assert sorted[i] in multiset(WithoutKey(ps, "hash"));
      assert sorted[i] in ps;
    }
    if sorted != [] {
      assert lines[0] != "" by { assert lines[0][|sorted[0].key|] == '='; }
      JoinNonEmpty(lines);
      SplitJoin(lines);
      var read := ReadDataCheck(Join(lines));
      forall i | 0 <= i < |sorted| ensures read[i] == sorted[i] {
        SplitAtEqualsRender(sorted[i]);
      }
    }
  }

  /** Hence two unambiguous payloads have the same data-check string only if
      they carry the same pairs besides `hash`: altering any signed value
      alters the signed message. */
  lemma DataCheckStringInjective(ps: seq<Param>, qs: seq<Param>)
    requires Unambiguous(ps) && Unambiguous(qs)
    requires DataCheckString(ps) == DataCheckString(qs)
    ensures multiset(WithoutKey(ps, "hash")) == multiset(WithoutKey(qs, "hash"))
  {
    ReadDataCheckString(ps);
    ReadDataCheckString(qs);
    SortByKeyCorrect(WithoutKey(ps, "hash"));
    SortByKeyCorrect(WithoutKey(qs, "hash"));
  }

  // ---------------------------------------------------------------- order independence

  lemma {:induction false} WithoutKeyCount(ps: seq<Param>, k: string, x: Param)
    ensures multiset(WithoutKey(ps, k))[x] == if x.key == k then 0 else multiset(ps)[x]
  {
    if ps != [] {
      WithoutKeyCount(ps[1..], k, x);
      assert ps == [ps[0]] + ps[1..];
    }
  }

  lemma {:induction false} WithoutKeyDistinct(ps: seq<Param>, k: string)
    requires DistinctKeys(ps)
    ensures DistinctKeys(WithoutKey(ps, k))
  {
    if ps != [] {
      WithoutKeyDistinct(ps[1..], k);
      var r := WithoutKey(ps, k);
      var t := WithoutKey(ps[1..], k);
      if ps[0].key != k {
        assert r == [ps[0]] + t;
        WithoutKeyMembers(ps[1..], k);
        forall i, j | 0 <= i < j < |r| ensures r[i].key != r[j].key {
          if i == 0 {
            assert r[j] in ps[1..];
            var m :| 0 <= m < |ps[1..]| && ps[1..][m] == r[j];
            assert ps[m + 1] == r[j];
          }
        }
      }
    }
  }

  lemma GetDistinct(ps: seq<Param>, p: Param)
    requires DistinctKeys(ps) && p in ps
    ensures Get(ps, p.key) == Some(p.value)
  {
    var i :| 0 <= i < |ps| && ps[i] == p;
    GetFinds(ps, p.key);
    var r := Get(ps, p.key);
    assert r.Some?;
    var j :| 0 <= j < |ps| && ps[j] == Param(p.key, r.value);
  }

  /** With distinct keys, `get` does not depend on the order of the pairs. */
  lemma GetReordered(ps: seq<Param>, qs: seq<Param>, k: string)
    requires DistinctKeys(ps) && multiset(ps) == multiset(qs)
    ensures Get(ps, k) == Get(qs, k)
  {
    GetFinds(ps, k);
    GetFinds(qs, k);
    var r := Get(qs, k);
    if r.Some? {
      assert Param(k, r.value) in multiset(ps);
      GetDistinct(ps, Param(k, r.value));
    } else {
      forall i | 0 <= i < |ps| ensures ps[i].key != k {
        assert ps[i] in multiset(qs);
      }
    }
  }

  lemma {:induction false} GetWithoutOtherKey(ps: seq<Param>, h: string, k: string)
    requires h != k
    ensures Get(WithoutKey(ps, h), k) == Get(ps, k)
  {
    if ps != [] {
      GetWithoutOtherKey(ps[1..], h, k);
      var t := WithoutKey(ps[1..], h);
      if ps[0].key == h {
        assert WithoutKey(ps, h) == t;
      } else {
        assert WithoutKey(ps, h) == [ps[0]] + t;
        assert ([ps[0]] + t)[1..] == t;
      }
    }
  }

  /** Reordering pairs with distinct keys does not change the data-check string. */
  lemma DataCheckStringReordered(ps: seq<Param>, qs: seq<Param>)
    requires DistinctKeys(ps) && multiset(ps) == multiset(qs)
    ensures DataCheckString(ps) == DataCheckString(qs)
  {
    var a, b := WithoutKey(ps, "hash"), WithoutKey(qs, "hash");
    forall x ensures multiset(a)[x] == multiset(b)[x] {
      WithoutKeyCount(ps, "hash", x);
      WithoutKeyCount(qs, "hash", x);
    }
    assert multiset(a) == multiset(b);
    SortByKeyCorrect(a);
    SortByKeyCorrect(b);
    WithoutKeyDistinct(ps, "hash");
    var sa := SortByKey(a);
    assert DistinctKeys(sa) by {
      forall i, j | 0 <= i < j < |sa| ensures sa[i].key != sa[j].key {
        if sa[i].key == sa[j].key {
          KeyPairInDistinct(a, sa, i, j);
        }
      }
    }
    SortedUnique(sa, SortByKey(b));
  }

  /** Two different positions of a rearrangement of a key-distinct sequence hold different keys. */
  lemma KeyPairInDistinct(a: seq<Param>, s: seq<Param>, i: int, j: int)
    requires DistinctKeys(a) && multiset(s) == multiset(a)
    requires 0 <= i < j < |s|
    ensures s[i].key != s[j].key
  {
    if s[i].key == s[j].key {
      assert s[i] in multiset(a) && s[j] in multiset(a);
      var m :| 0 <= m < |a| && a[m] == s[i];
      var n :| 0 <= n < |a| && a[n] == s[j];
      assert m == n;
      assert s == s[..i] + [s[i]] + s[i + 1..j] + [s[j]] + s[j + 1..];
      assert multiset(s)[s[i]] >= 2;
      CountInDistinct(a, m);
      assert false;
    }
  }

  lemma CountInDistinct(a: seq<Param>, m: int)
    requires DistinctKeys(a) && 0 <= m < |a|
    ensures multiset(a)[a[m]] == 1
  {
    assert a == a[..m] + [a[m]] + a[m + 1..];
    NotInDistinct(a, m, a[..m]);
    NotInDistinct(a, m, a[m + 1..]);
  }

  lemma NotInDistinct(a: seq<Param>, m: int, part: seq<Param>)
    requires DistinctKeys(a) && 0 <= m < |a|
    requires part == a[..m] || part == a[m + 1..]
    ensures multiset(part)[a[m]] == 0
  {
    forall k | 0 <= k < |part| ensures part[k] != a[m] {
      if part == a[..m] {
        assert part[k] == a[k];
      } else {
        assert part[k] == a[m + 1 + k];
      }
    }
  }
}
