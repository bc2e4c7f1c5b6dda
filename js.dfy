/**
 * The few JavaScript built-ins the pages rely on, stated as Dafny functions
 * over sequences: truthiness of an optional identifier, the `||` fallback on
 * strings, `Array.prototype.filter` and `map`, `String.prototype.indexOf`,
 * `replace` with a one-character string pattern, and `toUpperCase`.
 */
module Js {

  /** A value that may be `undefined` (or `null`). */
  datatype Option<+T> = None | Some(value: T)

  /** JavaScript truthiness of an identifier that may be absent: `undefined`,
      `null` and `''` are falsy, every other string is truthy. */
  predicate Truthy(id: Option<string>) {
    id.Some? && id.value != ""
  }

  /** The idiom `s || fallback` on a string; an absent string is modelled as "". */
  function Or(s: string, fallback: string): string {
    if s != "" then s else fallback
  }

  /** `s.filter(keep)`: the elements `keep` accepts, each as often as in `s`, in their original order. */
  function Filter<T(==,!new)>(s: seq<T>, keep: T -> bool): (r: seq<T>)
    ensures |r| <= |s|
    ensures forall x :: multiset(r)[x] == if keep(x) then multiset(s)[x] else 0
    ensures forall x :: x in r <==> x in s && keep(x)
    ensures (forall i :: 0 <= i < |s| ==> keep(s[i])) ==> r == s
  {
    if s == [] then []
    else
      var rest := Filter(s[1..], keep);
      assert s == [s[0]] + s[1..];
      if keep(s[0]) then [s[0]] + rest else rest
  }

  /** Filtering distributes over concatenation: the kept elements of `a` come
      before the kept elements of `b`, so filtering never reorders. */
  lemma {:induction false} FilterAppend<T(!new)>(a: seq<T>, b: seq<T>, keep: T -> bool)
    ensures Filter(a + b, keep) == Filter(a, keep) + Filter(b, keep)
  {
    if a == [] {
      assert a + b == b;
    } else {
      assert (a + b)[1..] == a[1..] + b;
      FilterAppend(a[1..], b, keep);
    }
  }

  /** `s.map(x => sel(x) ? y : x)`. */
  function ReplaceWhere<T>(s: seq<T>, sel: T -> bool, y: T): (r: seq<T>)
    ensures |r| == |s|
    ensures forall i :: 0 <= i < |s| ==> r[i] == if sel(s[i]) then y else s[i]
  {
    if s == [] then []
    else [if sel(s[0]) then y else s[0]] + ReplaceWhere(s[1..], sel, y)
  }

  /** `s.indexOf(c)`: the first position of `c` in `s`, or -1 when there is none. */
  function IndexOf(s: string, c: char): (i: int)
    ensures -1 <= i < |s|
    ensures i == -1 <==> c !in s
    ensures 0 <= i ==> s[i] == c && c !in s[..i]
  {
    if s == [] then -1
    else if s[0] == c then 0
    else
      var j := IndexOf(s[1..], c);
      assert s[1..][..j + 1] == s[1..j + 2] by { assert j + 2 <= |s| || j == -1; }
      if j == -1 then -1 else j + 1
  }

  /** `s.replace(c, d)` with a one-character string pattern: JavaScript replaces
      only the first occurrence, the one `indexOf` finds. */
  function ReplaceFirst(s: string, c: char, d: char): (r: string)
    ensures var i := IndexOf(s, c); r == if i < 0 then s else s[..i] + [d] + s[i + 1..]
  {
    if s == [] then []
    else if s[0] == c then [d] + s[1..]
    else [s[0]] + ReplaceFirst(s[1..], c, d)
  }

  /** Upper-casing of one character (ASCII letters only). */
  function UpperChar(c: char): char {
    if 'a' <= c <= 'z' then (c as int - 32) as char else c
  }

  /** `s.toUpperCase()`, character by character. */
  function ToUpperCase(s: string): (r: string)
    ensures |r| == |s|
    ensures forall i :: 0 <= i < |s| ==> r[i] == UpperChar(s[i])
  {
    if s == [] then [] else [UpperChar(s[0])] + ToUpperCase(s[1..])
  }
}
