/**
 * The search box of the admin lists: keep the items whose lower-cased name
 * contains the lower-cased filter text (`name.toLowerCase().includes(
 * filterText.toLowerCase())`). Lower-casing is modelled on ASCII letters.
 */
module TextSearch {
  import opened Common

  function LowerChar(c: char): (d: char)
    ensures 'A' <= c <= 'Z' ==> d as int == c as int + 32
    ensures !('A' <= c <= 'Z') ==> d == c
  {
    if 'A' <= c <= 'Z' then (c as int + 32) as char else c
  }

  /** `s.toLowerCase()` on ASCII letters. */
  function Lower(s: string): (r: string)
    ensures |r| == |s|
    ensures forall i :: 0 <= i < |s| ==> r[i] == LowerChar(s[i])
  {
    seq(|s|, i requires 0 <= i < |s| => LowerChar(s[i]))
  }

  /** `s.includes(p)`: `p` occurs in `s` at some position. */
  predicate Includes(s: string, p: string): (found: bool)
    ensures p == "" ==> found
    ensures found ==> |p| <= |s|
  {
    assert p == "" ==> OccursAt(s, p, 0);
    exists i :: 0 <= i <= |s| && OccursAt(s, p, i)
  }

  predicate OccursAt(s: string, p: string, i: nat)
  {
    i + |p| <= |s| && s[i..i + |p|] == p
  }

  /** Two filter texts that differ only in the case of their letters. */
  predicate SameIgnoringCase(a: string, b: string)
  {
    |a| == |b| && forall i :: 0 <= i < |a| ==> LowerChar(a[i]) == LowerChar(b[i])
  }

  /** Whether an item named `name` passes the filter text. */
  predicate Matches(name: string, filterText: string)
  {
    Includes(Lower(name), Lower(filterText))
  }

  /** `items.filter((item) => item.name.toLowerCase().includes(filterText.toLowerCase()))`. */
  function FilterByName<T(!new)>(items: seq<T>, nameOf: T -> string, filterText: string): (r: seq<T>)
    ensures forall x :: x in r <==> x in items && Matches(nameOf(x), filterText)
    ensures IsSubsequence(r, items)
    ensures forall x :: multiset(r)[x] == if Matches(nameOf(x), filterText) then multiset(items)[x] else 0
  {
    Filter(items, x => Matches(nameOf(x), filterText))
  }

  /** The empty filter text keeps every item. */
  lemma EmptyFilterKeepsAll<T(!new)>(items: seq<T>, nameOf: T -> string)
    ensures FilterByName(items, nameOf, "") == items
  {
    forall x | x in items
      ensures Matches(nameOf(x), "")
    {
      assert OccursAt(Lower(nameOf(x)), Lower(""), 0);
    }
    FilterKeepsAll(items, x => Matches(nameOf(x), ""));
  }

  /** Filter texts that differ only in letter case select the same items. */
  lemma FilterIgnoresCase<T(!new)>(items: seq<T>, nameOf: T -> string, a: string, b: string)
    requires SameIgnoringCase(a, b)
    ensures FilterByName(items, nameOf, a) == FilterByName(items, nameOf, b)
  {
    assert Lower(a) == Lower(b);
    FilterCongruent(items, x => Matches(nameOf(x), a), x => Matches(nameOf(x), b));
  }
}
