/** The explore page's category search: a category stays in the list when
    its lower-cased title contains the lower-cased query. */
module Explore {

  datatype Category = Category(id: string, title: string, subtitle: string, practices: int)

  const Categories: seq<Category> := [
    Category("sleep", "Sleep", "Fall asleep with ease", 12),
    Category("anxiety", "Anxiety", "Calm stress and anxiety", 15),
    Category("energy", "Morning Energy", "Wake up with focus", 8),
    Category("focus", "Focus", "Boost concentration", 10),
    Category("beauty", "Beauty Rest", "Reduce cortisol face", 7),
    Category("recharge", "Recharge", "Restore your energy", 9)
  ]

  /** `toLowerCase` on one character, for the ASCII letters. */
  function LowerChar(c: char): (d: char)
    ensures 'A' <= c <= 'Z' ==> d as int == c as int + 32
    ensures !('A' <= c <= 'Z') ==> d == c
  {
    if 'A' <= c <= 'Z' then (c as int + 32) as char else c
  }

  /** `toUpperCase` on one character, for the ASCII letters. */
  function UpperChar(c: char): (d: char)
    ensures 'a' <= c <= 'z' ==> d as int == c as int - 32
    ensures !('a' <= c <= 'z') ==> d == c
  {
    if 'a' <= c <= 'z' then (c as int - 32) as char else c
  }

  function Lower(s: string): (r: string)
    ensures |r| == |s|
    ensures forall i :: 0 <= i < |s| ==> r[i] == LowerChar(s[i])
  {
    seq(|s|, i requires 0 <= i < |s| => LowerChar(s[i]))
  }

  function Upper(s: string): (r: string)
    ensures |r| == |s|
    ensures forall i :: 0 <= i < |s| ==> r[i] == UpperChar(s[i])
  {
    seq(|s|, i requires 0 <= i < |s| => UpperChar(s[i]))
  }

  /** `s.includes(q)`: `q` occurs in `s` at some position. */
  predicate Contains(s: string, q: string)
    decreases |s|
  {
    q <= s || (s != [] && Contains(s[1..], q))
  }

  /** The search test applied to one category. */
  predicate Matches(c: Category, query: string)
  {
    Contains(Lower(c.title), Lower(query))
  }

  /** `categories.filter(...)`. */
  function Filter(cats: seq<Category>, query: string): (r: seq<Category>)
    ensures |r| <= |cats|
    ensures forall c :: c in r <==> c in cats && Matches(c, query)
  {
    if cats == [] then []
    else if Matches(cats[0], query) then [cats[0]] + Filter(cats[1..], query)
    else Filter(cats[1..], query)
  }

  /** The list the page shows for a query. */
  function FilteredCategories(query: string): (r: seq<Category>)
    ensures forall c :: c in r <==> c in Categories && Matches(c, query)
  {
    Filter(Categories, query)
  }

  /** `sub` is `s` with some elements dropped and the rest in order. */
  predicate Subsequence(sub: seq<Category>, s: seq<Category>)
    decreases |s|
  {
    sub == [] || (s != [] && ((sub[0] == s[0] && Subsequence(sub[1..], s[1..])) || Subsequence(sub, s[1..])))
  }

  // ---------------------------------------------------------------- properties

  /** The result keeps the categories' order. */
  lemma {:induction false} FilterIsSubsequence(cats: seq<Category>, query: string)
    ensures Subsequence(Filter(cats, query), cats)
    decreases |cats|
  {
    if cats != [] {
      FilterIsSubsequence(cats[1..], query);
      if Matches(cats[0], query) {
        assert Filter(cats, query)[1..] == Filter(cats[1..], query);
      }
    }
  }

  lemma {:induction false} ContainsEmpty(s: string)
    ensures Contains(s, "")
  {
  }

  /** An empty query shows every category. */
  lemma {:induction false} EmptyQueryKeepsAll(cats: seq<Category>)
    ensures Filter(cats, "") == cats
    decreases |cats|
  {
    if cats != [] {
      assert Lower("") == "";
      ContainsEmpty(Lower(cats[0].title));
      EmptyQueryKeepsAll(cats[1..]);
    }
  }

  /** Only the title is searched: the id, subtitle and practice count never
      change the outcome. */
  lemma OnlyTitleSearched(c: Category, d: Category, query: string)
    requires c.title == d.title
    ensures Matches(c, query) <==> Matches(d, query)
  {
  }

  /** An occurrence inside a prefix of `s` is an occurrence in `s`. */
  lemma {:induction false} ContainsInPrefix(p: string, s: string, q: string)
    requires p <= s && Contains(p, q)
    ensures Contains(s, q)
    decreases |p|
  {
    if !(q <= p) {
      assert p != [] && Contains(p[1..], q);
      assert p[1..] <= s[1..];
      ContainsInPrefix(p[1..], s[1..], q);
    } else {
      assert q <= s;
    }
  }

  /** Containment is transitive. */
  lemma {:induction false} ContainsTransitive(a: string, b: string, c: string)
    requires Contains(a, b) && Contains(b, c)
    ensures Contains(a, c)
    decreases |a|
  {
    if b <= a {
      ContainsInPrefix(b, a, c);
    } else {
      ContainsTransitive(a[1..], b, c);
    }
  }

  /** Lower-casing keeps an occurrence. */
  lemma {:induction false} LowerKeepsContains(s: string, q: string)
    requires Contains(s, q)
    ensures Contains(Lower(s), Lower(q))
    decreases |s|
  {
    if q <= s {
      assert Lower(q) <= Lower(s);
    } else {
      LowerKeepsContains(s[1..], q);
      assert Lower(s)[1..] == Lower(s[1..]);
    }
  }

  /** Typing more narrows the list: when `q` occurs in `longer`, every
      category found for `longer` is found for `q`. */
  lemma Narrowing(c: Category, q: string, longer: string)
    requires Contains(longer, q)
    ensures Matches(c, longer) ==> Matches(c, q)
  {
    if Matches(c, longer) {
      LowerKeepsContains(longer, q);
      ContainsTransitive(Lower(c.title), Lower(longer), Lower(q));
    }
  }

  /** Lower-casing an upper-cased string is lower-casing it. */
  lemma LowerUpper(s: string)
    ensures Lower(Upper(s)) == Lower(s)
  {
    forall i | 0 <= i < |s| ensures Lower(Upper(s))[i] == Lower(s)[i] {
      assert Upper(s)[i] == UpperChar(s[i]);
    }
  }

  /** The search ignores the case of ASCII letters in the query. */
  lemma CaseInsensitive(cats: seq<Category>, query: string)
    ensures Filter(cats, Upper(query)) == Filter(cats, query)
    ensures Filter(cats, Lower(query)) == Filter(cats, query)
  {
    LowerUpper(query);
    assert Lower(Lower(query)) == Lower(query);
    SameLowerSameFilter(cats, Upper(query), query);
    SameLowerSameFilter(cats, Lower(query), query);
  }

  lemma {:induction false} SameLowerSameFilter(cats: seq<Category>, q1: string, q2: string)
    requires Lower(q1) == Lower(q2)
    ensures Filter(cats, q1) == Filter(cats, q2)
    decreases |cats|
  {
    if cats != [] {
      SameLowerSameFilter(cats[1..], q1, q2);
    }
  }
}
