/**
  String helpers shared by the model. JavaScript's `toLowerCase`/`toUpperCase`
  are modelled on the ASCII letters only; every other character maps to itself.
 */
module Strings {

  /** `c.toLowerCase()` on one character (ASCII letters only). */
  function Lower(c: char): (d: char)
    ensures 'A' <= c <= 'Z' ==> 'a' <= d <= 'z' && d as int == c as int + 32
    ensures !('A' <= c <= 'Z') ==> d == c
  {
    if 'A' <= c <= 'Z' then (c as int + 32) as char else c
  }

  /** `c.toUpperCase()` on one character (ASCII letters only). */
  function Upper(c: char): (d: char)
    ensures 'a' <= c <= 'z' ==> 'A' <= d <= 'Z' && d as int == c as int - 32
    ensures !('a' <= c <= 'z') ==> d == c
  {
    if 'a' <= c <= 'z' then (c as int - 32) as char else c
  }

  function LowerStr(s: string): (r: string)
    ensures |r| == |s|
    ensures forall i :: 0 <= i < |s| ==> r[i] == Lower(s[i])
  {
    seq(|s|, i requires 0 <= i < |s| => Lower(s[i]))
  }

  function UpperStr(s: string): (r: string)
    ensures |r| == |s|
    ensures forall i :: 0 <= i < |s| ==> r[i] == Upper(s[i])
  {
    seq(|s|, i requires 0 <= i < |s| => Upper(s[i]))
  }

  /** `a.toLowerCase() === b.toLowerCase()`. */
  predicate EqualsIgnoreCase(a: string, b: string)
  {
    LowerStr(a) == LowerStr(b)
  }

  /** `s.startsWith(prefix)`, case-sensitive. */
  predicate StartsWith(s: string, prefix: string)
  {
    |prefix| <= |s| && s[..|prefix|] == prefix
  }

  /** `needle` occurs in `hay` starting at offset `i`. */
  predicate OccursAt(hay: string, needle: string, i: int)
  {
    0 <= i && i + |needle| <= |hay| && hay[i..i + |needle|] == needle
  }

  /** `hay.includes(needle)`: scan the offsets left to right. */
  function Contains(hay: string, needle: string): bool
    decreases |hay|
  {
    if |needle| > |hay| then false
    else if hay[..|needle|] == needle then true
    else Contains(hay[1..], needle)
  }

  /** The scan finds `needle` exactly when it occurs at some offset. */
  lemma {:induction false} ContainsIff(hay: string, needle: string)
    ensures Contains(hay, needle) <==> exists i :: OccursAt(hay, needle, i)
    decreases |hay|
  {
    if |needle| > |hay| {
    } else if hay[..|needle|] == needle {
      assert OccursAt(hay, needle, 0);
    } else {
      ContainsIff(hay[1..], needle);
      if Contains(hay[1..], needle) {
        var i :| OccursAt(hay[1..], needle, i);
        assert hay[1..][i..i + |needle|] == hay[i + 1..i + 1 + |needle|];
        assert OccursAt(hay, needle, i + 1);
      } else {
        forall i | OccursAt(hay, needle, i)
          ensures false
        {
          if i != 0 {
            assert hay[1..][i - 1..i - 1 + |needle|] == hay[i..i + |needle|];
            assert OccursAt(hay[1..], needle, i - 1);
          }
        }
      }
    }
  }

  /**
    `s.split(sep)` for a one-character separator: the pieces between
    separators, with an empty piece wherever two separators are adjacent or
    the string starts or ends with one. Never empty: `"".split(" ")` is `[""]`.
   */
  function Split(s: string, sep: char): (parts: seq<string>)
    ensures |parts| >= 1
    decreases |s|
  {
    if s == [] then [[]]
    else
      var rest := Split(s[1..], sep);
      if s[0] == sep then [[]] + rest else [[s[0]] + rest[0]] + rest[1..]
  }

  /** `parts.join(sep)`. */
  function Join(parts: seq<string>, sep: char): string
    decreases |parts|
  {
    if parts == [] then []
    else if |parts| == 1 then parts[0]
    else parts[0] + [sep] + Join(parts[1..], sep)
  }

  /** No piece of a split contains the separator. */
  lemma {:induction false} SplitPiecesFree(s: string, sep: char)
    ensures forall k :: 0 <= k < |Split(s, sep)| ==> sep !in Split(s, sep)[k]
    decreases |s|
  {
    if s != [] {
      SplitPiecesFree(s[1..], sep);
    }
  }

  /** Joining the pieces with the separator gives back the string. */
  lemma {:induction false} JoinSplit(s: string, sep: char)
    ensures Join(Split(s, sep), sep) == s
    decreases |s|
  {
    if s != [] {
      var rest := Split(s[1..], sep);
      JoinSplit(s[1..], sep);
      if s[0] == sep {
        assert Split(s, sep) == [[]] + rest;
        assert ([[]] + rest)[1..] == rest;
      } else {
        var parts := [[s[0]] + rest[0]] + rest[1..];
        assert Split(s, sep) == parts;
        if |rest| == 1 {
          assert rest == [rest[0]];
        } else {
          assert parts[1..] == rest[1..];
          assert Join(rest, sep) == rest[0] + [sep] + Join(rest[1..], sep);
        }
      }
    }
  }

  /**
    Splitting `t + rest` where `t` holds no separator glues `t` onto the first
    piece of `rest` and keeps the other pieces of `rest`.
   */
  lemma {:induction false} SplitPrefix(t: string, rest: string, sep: char)
    requires sep !in t
    ensures Split(t + rest, sep) == [t + Split(rest, sep)[0]] + Split(rest, sep)[1..]
    decreases |t|
  {
    if t == [] {
      assert t + rest == rest;
      assert t + Split(rest, sep)[0] == Split(rest, sep)[0];
      assert Split(rest, sep) == [Split(rest, sep)[0]] + Split(rest, sep)[1..];
    } else {
      assert (t + rest)[1..] == t[1..] + rest;
      SplitPrefix(t[1..], rest, sep);
      assert [t[0]] + (t[1..] + Split(rest, sep)[0]) == t + Split(rest, sep)[0];
    }
  }

  /**
    The first piece of a split is the longest prefix free of the separator:
    it is a prefix of `s`, holds no separator, and is either all of `s` or
    followed by a separator.
   */
  lemma FirstPiece(s: string, sep: char)
    ensures var p := Split(s, sep)[0];
      |p| <= |s| && s[..|p|] == p && sep !in p && (|p| == |s| || s[|p|] == sep)
  {
    var p := Split(s, sep)[0];
    SplitPiecesFree(s, sep);
    JoinSplit(s, sep);
    var parts := Split(s, sep);
    if |parts| == 1 {
      assert Join(parts, sep) == p;
    } else {
      assert Join(parts, sep) == p + [sep] + Join(parts[1..], sep);
      assert s[..|p|] == p;
    }
  }

  /** The piece after a separator: `("a b c").split(" ")[1] == "b"`. */
  lemma SecondPiece(t: string, u: string, rest: string, sep: char)
    requires sep !in t && sep !in u
    requires rest == [] || rest[0] == sep
    ensures |Split(t + [sep] + u + rest, sep)| >= 2
    ensures Split(t + [sep] + u + rest, sep)[0] == t
    ensures Split(t + [sep] + u + rest, sep)[1] == u
  {
    var tail := u + rest;
    assert t + [sep] + u + rest == t + ([sep] + tail);
    SplitPrefix(t, [sep] + tail, sep);
    assert ([sep] + tail)[1..] == tail;
    assert Split([sep] + tail, sep) == [[]] + Split(tail, sep);
    SplitPrefix(u, rest, sep);
    if rest == [] {
      assert Split(rest, sep) == [[]];
    } else {
      assert Split(rest, sep)[0] == [];
    }
  }

  /** The number a string of decimal digits denotes. */
  function DigitsValue(s: string): nat
    requires forall i :: 0 <= i < |s| ==> '0' <= s[i] <= '9'
    decreases |s|
  {
    if s == [] then 0 else DigitsValue(s[..|s| - 1]) * 10 + (s[|s| - 1] as int - '0' as int)
  }

  /** The decimal rendering of a natural number, as a template literal prints it: no leading zeros. */
  function NatToString(n: nat): (s: string)
    ensures |s| >= 1
    ensures forall i :: 0 <= i < |s| ==> '0' <= s[i] <= '9'
    ensures DigitsValue(s) == n
    ensures |s| == 1 || s[0] != '0'
    decreases n
  {
    var d := ((n % 10) + '0' as int) as char;
    if n < 10 then
      assert [d][..0] == [];
      [d]
    else
      var r := NatToString(n / 10) + [d];
      assert r[..|r| - 1] == NatToString(n / 10);
      r
  }
}
