/**
 * The fragment of PHP's value semantics that the module relies on: string-or-NULL
 * values, their boolean conversion, `explode` with a one-character delimiter (and
 * its inverse `implode`), and the default `trim`.
 */
module Php {

  /** A request, session or configuration value: NULL or a string. */
  datatype Value = Null | Str(s: string)

  /** PHP's boolean conversion: NULL, "" and "0" are false, every other string is true. */
  predicate Truthy(v: Value) {
    v.Str? && v.s != "" && v.s != "0"
  }

  /** PHP's string conversion: NULL becomes "". */
  function AsString(v: Value): string {
    if v.Null? then "" else v.s
  }

  /** The value stored under `key`, or NULL when there is none. */
  function Lookup(m: map<string, Value>, key: string): Value {
    if key in m then m[key] else Null
  }

  /** Number of occurrences of `c` in `s`. */
  function Occurrences(c: char, s: string): nat {
    if s == [] then 0 else (if s[0] == c then 1 else 0) + Occurrences(c, s[1..])
  }

  /**
   * `explode(sep, s)`: the pieces of `s` between occurrences of `sep`. There is
   * always one piece more than there are separators, so "" gives [""].
   */
  function Explode(sep: char, s: string): (parts: seq<string>)
    ensures |parts| == Occurrences(sep, s) + 1
  {
    if s == [] then [""]
    else
      var rest := Explode(sep, s[1..]);
      if s[0] == sep then [""] + rest else [[s[0]] + rest[0]] + rest[1..]
  }

  /** `implode(sep, parts)`: the pieces joined with `sep` between neighbours. */
  function Implode(sep: char, parts: seq<string>): string {
    if parts == [] then ""
    else if |parts| == 1 then parts[0]
    else parts[0] + [sep] + Implode(sep, parts[1..])
  }

  /** No piece produced by `explode` contains the separator. */
  lemma {:induction false} ExplodePiecesFree(sep: char, s: string)
    ensures forall i :: 0 <= i < |Explode(sep, s)| ==> sep !in Explode(sep, s)[i]
  {
    if s != [] {
      ExplodePiecesFree(sep, s[1..]);
    }
  }

  /** A string without the separator explodes to itself alone. */
  lemma {:induction false} ExplodeWithoutSeparator(sep: char, s: string)
    requires sep !in s
    ensures Explode(sep, s) == [s]
  {
    if s != [] {
      ExplodeWithoutSeparator(sep, s[1..]);
      assert [s[0]] + s[1..] == s;
    }
  }

  /** A separator between `a` and `b` splits exactly there. */
  lemma {:induction false} ExplodeConcat(sep: char, a: string, b: string)
    ensures Explode(sep, a + [sep] + b) == Explode(sep, a) + Explode(sep, b)
  {
    if a == [] {
      assert a + [sep] + b == [sep] + b;
      assert ([sep] + b)[1..] == b;
    } else {
      assert (a + [sep] + b)[1..] == a[1..] + [sep] + b;
      ExplodeConcat(sep, a[1..], b);
    }
  }

  /** `implode` undoes `explode`. */
  lemma {:induction false} ImplodeExplode(sep: char, s: string)
    ensures Implode(sep, Explode(sep, s)) == s
  {
    if s != [] {
      var rest := Explode(sep, s[1..]);
      ImplodeExplode(sep, s[1..]);
      if s[0] == sep {
        assert ([""] + rest)[1..] == rest;
        assert s == [sep] + s[1..];
      } else if |rest| == 1 {
        assert [s[0]] + s[1..] == s;
      } else {
        var parts := [[s[0]] + rest[0]] + rest[1..];
        assert parts[1..] == rest[1..];
        assert Implode(sep, rest) == rest[0] + [sep] + Implode(sep, rest[1..]);
        assert [s[0]] + s[1..] == s;
      }
    }
  }

  /** A character other than the separator that no piece contains is absent from the joined text. */
  lemma {:induction false} ImplodeWithout(sep: char, c: char, parts: seq<string>)
    requires c != sep
    requires forall i :: 0 <= i < |parts| ==> c !in parts[i]
    ensures c !in Implode(sep, parts)
  {
    if |parts| > 1 {
      ImplodeWithout(sep, c, parts[1..]);
    }
  }

  /** `explode` undoes `implode` when no piece contains the separator. */
  lemma {:induction false} ExplodeImplode(sep: char, parts: seq<string>)
    requires |parts| >= 1
    requires forall i :: 0 <= i < |parts| ==> sep !in parts[i]
    ensures Explode(sep, Implode(sep, parts)) == parts
  {
    ExplodeWithoutSeparator(sep, parts[0]);
    if |parts| > 1 {
      ExplodeImplode(sep, parts[1..]);
      ExplodeConcat(sep, parts[0], Implode(sep, parts[1..]));
      assert [parts[0]] + parts[1..] == parts;
    }
  }

  /** The characters PHP's `trim` strips by default: " \t\n\r\0\x0B". */
  predicate IsTrimmed(c: char) {
    c == ' ' || c == '\t' || c == '\n' || c == '\r' || c == '\0' || c == '\U{000B}'
  }

  /** Length of the run of trimmed characters that `s` starts with (what `ltrim` removes). */
  function LeadingTrimmed(s: string): (n: nat)
    ensures n <= |s|
    ensures forall i :: 0 <= i < n ==> IsTrimmed(s[i])
    ensures n < |s| ==> !IsTrimmed(s[n])
  {
    if s != [] && IsTrimmed(s[0]) then 1 + LeadingTrimmed(s[1..]) else 0
  }

  /** Length of `s` once the run of trimmed characters it ends with is removed (what `rtrim` keeps). */
  function KeptBeforeTrailing(s: string): (n: nat)
    ensures n <= |s|
    ensures forall i :: n <= i < |s| ==> IsTrimmed(s[i])
    ensures n > 0 ==> !IsTrimmed(s[n - 1])
  {
    if s != [] && IsTrimmed(s[|s| - 1]) then KeptBeforeTrailing(s[..|s| - 1]) else |s|
  }

  /** `trim`: both ends stripped. */
  function Trim(s: string): string {
    var t := s[LeadingTrimmed(s)..];
    t[..KeptBeforeTrailing(t)]
  }

  /**
   * `trim(s)` is the infix of `s` left once every leading and trailing trimmed
   * character is removed, and it neither starts nor ends with one.
   */
  lemma TrimInfix(s: string)
    ensures exists i, j ::
              && 0 <= i <= j <= |s| && Trim(s) == s[i..j]
              && (forall k :: 0 <= k < i ==> IsTrimmed(s[k]))
              && (forall k :: j <= k < |s| ==> IsTrimmed(s[k]))
    ensures Trim(s) == [] || (!IsTrimmed(Trim(s)[0]) && !IsTrimmed(Trim(s)[|Trim(s)| - 1]))
  {
    var i := LeadingTrimmed(s);
    var t := s[i..];
    var j := i + KeptBeforeTrailing(t);
    assert Trim(s) == s[i..j];
    assert forall k :: j <= k < |s| ==> s[k] == t[k - i];
  }

  /** Trimming an already trimmed string changes nothing. */
  lemma TrimIdempotent(s: string)
    ensures Trim(Trim(s)) == Trim(s)
  {
  }
}
