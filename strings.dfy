/**
 * The two pieces of Java string handling the error pipeline relies on:
 * `String.toLowerCase` (on ASCII letters) and `String.join`.
 */
module Strings {

  predicate IsUpper(c: char) { 'A' <= c <= 'Z' }

  predicate IsLower(c: char) { 'a' <= c <= 'z' }

  /** Lower-cases one ASCII letter and leaves every other character alone. */
  function LowerChar(c: char): (r: char)
    ensures IsUpper(c) ==> IsLower(r) && r as int == c as int + 32
    ensures !IsUpper(c) ==> r == c
  {
    if IsUpper(c) then (c as int + 32) as char else c
  }

  /** `s.toLowerCase()`, restricted to ASCII letters. */
  function Lower(s: string): (r: string)
    ensures |r| == |s|
    ensures forall i :: 0 <= i < |s| ==> r[i] == LowerChar(s[i])
  {
    if s == [] then [] else [LowerChar(s[0])] + Lower(s[1..])
  }

  /** No character of `s` is a lower-case ASCII letter. */
  predicate NoLowerCase(s: string) {
    forall i :: 0 <= i < |s| ==> !IsLower(s[i])
  }

  /** On strings without lower-case letters, lower-casing loses no information. */
  lemma LowerInjective(a: string, b: string)
    requires NoLowerCase(a) && NoLowerCase(b)
    requires Lower(a) == Lower(b)
    ensures a == b
  {
    assert |a| == |b|;
    forall i | 0 <= i < |a| ensures a[i] == b[i] {
      assert LowerChar(a[i]) == Lower(a)[i] == Lower(b)[i] == LowerChar(b[i]);
    }
  }

  /** A string that holds an upper-case letter is changed by lower-casing. */
  lemma LowerChanges(s: string, i: nat)
    requires i < |s| && IsUpper(s[i])
    ensures Lower(s) != s
  {
    assert Lower(s)[i] != s[i];
  }

  /** `String.join(sep, xs)`: the elements in order, `sep` between neighbours. */
  function Join(sep: string, xs: seq<string>): (r: string)
    ensures xs == [] ==> r == ""
    ensures xs != [] ==> xs[0] <= r
    ensures |xs| == 1 ==> r == xs[0]
  {
    if xs == [] then ""
    else if |xs| == 1 then xs[0]
    else xs[0] + sep + Join(sep, xs[1..])
  }

  /** Total length of the elements of `xs`. */
  function TotalLength(xs: seq<string>): nat
  {
    if xs == [] then 0 else |xs[0]| + TotalLength(xs[1..])
  }

  /**
   * Joining is the left-to-right accumulation `StringJoiner` performs:
   * appending an element appends the separator and then the element.
   */
  lemma {:induction false} JoinSnoc(sep: string, xs: seq<string>, x: string)
    requires xs != []
    ensures Join(sep, xs + [x]) == Join(sep, xs) + sep + x
  {
    if |xs| == 1 {
      assert xs + [x] == [xs[0], x];
    } else {
      assert (xs + [x])[1..] == xs[1..] + [x];
      JoinSnoc(sep, xs[1..], x);
    }
  }

  /** The joined text holds every element and one separator per neighbouring pair. */
  lemma {:induction false} JoinLength(sep: string, xs: seq<string>)
    requires xs != []
    ensures |Join(sep, xs)| == TotalLength(xs) + |sep| * (|xs| - 1)
  {
    if |xs| > 1 {
      JoinLength(sep, xs[1..]);
    }
  }
}
