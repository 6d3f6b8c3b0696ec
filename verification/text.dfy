/**
 * The string operations the catalog's views use: ASCII case folding (for
 * `toLowerCase`/`toUpperCase`), substring search (`includes`), the blank test
 * behind `trim() === ''`, `join`, decimal rendering of numbers, and the
 * quote doubling and quoted-cell reading of comma-separated values.
 */
module Text {

  import opened Sequences

  predicate IsUpper(c: char) { 'A' <= c <= 'Z' }
  predicate IsLower(c: char) { 'a' <= c <= 'z' }

  /** An upper-case letter becomes the lower-case letter 32 code points above it; anything else stays. */
  function LowerChar(c: char): (d: char)
    ensures !IsUpper(d)
    ensures IsUpper(c) ==> IsLower(d) && d as int == c as int + 32
    ensures !IsUpper(c) ==> d == c
  {
    if IsUpper(c) then (c as int + 32) as char else c
  }

  /** A lower-case letter becomes the upper-case letter 32 code points below it; anything else stays. */
  function UpperChar(c: char): (d: char)
    ensures !IsLower(d)
    ensures IsLower(c) ==> IsUpper(d) && d as int == c as int - 32
    ensures !IsLower(c) ==> d == c
  {
    if IsLower(c) then (c as int - 32) as char else c
  }

  /** `s.toLowerCase()`, folding ASCII letters only. */
  function ToLower(s: string): (r: string)
    ensures |r| == |s|
    ensures forall i :: 0 <= i < |r| ==> !IsUpper(r[i])
    ensures forall i :: 0 <= i < |s| && !IsUpper(s[i]) ==> r[i] == s[i]
    ensures forall i :: 0 <= i < |s| ==> r[i] == LowerChar(s[i])
  {
    seq(|s|, i requires 0 <= i < |s| => LowerChar(s[i]))
  }

  /** `s.toUpperCase()`, folding ASCII letters only. */
  function ToUpper(s: string): (r: string)
    ensures |r| == |s|
    ensures forall i :: 0 <= i < |r| ==> !IsLower(r[i])
    ensures forall i :: 0 <= i < |s| && !IsLower(s[i]) ==> r[i] == s[i]
    ensures forall i :: 0 <= i < |s| ==> r[i] == UpperChar(s[i])
  {
    seq(|s|, i requires 0 <= i < |s| => UpperChar(s[i]))
  }

  /** Folding twice is folding once: lower-casing an already lower-cased query changes nothing. */
  lemma ToLowerIdempotent(s: string)
    ensures ToLower(ToLower(s)) == ToLower(s)
  {
  }

  predicate StartsWith(s: string, prefix: string) {
    |prefix| <= |s| && s[..|prefix|] == prefix
  }

  /** `s.includes(q)`: `q` occurs somewhere in `s`. */
  predicate Includes(s: string, q: string)
    decreases |s|
  {
    StartsWith(s, q) || (s != [] && Includes(s[1..], q))
  }

  /** `q` occurs in `s` starting at position `i`. */
  predicate OccursAt(s: string, q: string, i: int) {
    0 <= i <= |s| - |q| && s[i..i + |q|] == q
  }

  /** `Includes` agrees with the positional definition of "is a substring of". */
  lemma {:induction false} IncludesIffOccurs(s: string, q: string)
    ensures Includes(s, q) <==> exists i :: OccursAt(s, q, i)
  {
    if StartsWith(s, q) {
      assert OccursAt(s, q, 0);
    }
    if s != [] {
      IncludesIffOccurs(s[1..], q);
      if Includes(s[1..], q) {
        var i :| OccursAt(s[1..], q, i);
        assert s[1..][i..i + |q|] == s[i + 1..i + 1 + |q|];
        assert OccursAt(s, q, i + 1);
      }
      if i :| OccursAt(s, q, i) {
        if i > 0 {
          assert s[1..][i - 1..i - 1 + |q|] == s[i..i + |q|];
          assert OccursAt(s[1..], q, i - 1);
        } else {
          assert StartsWith(s, q);
        }
      }
    }
  }

  /** Every string includes the empty string. */
  lemma IncludesEmpty(s: string)
    ensures Includes(s, "")
  {
  }

  /**
   * The characters `String.prototype.trim` removes: the WhiteSpace and
   * LineTerminator characters of ECMA-262 (sections 12.2 and 12.3), where
   * WhiteSpace includes every space separator of Unicode category Zs.
   */
  predicate IsWhitespace(c: char) {
    // line terminators
    c == '\n' || c == '\r' || c == '\U{2028}' || c == '\U{2029}'
    // tab, vertical tab, form feed and the byte order mark
    || c == '\t' || c == '\U{000B}' || c == '\U{000C}' || c == '\U{FEFF}'
    // the space separators
    || c == ' ' || c == '\U{00A0}' || c == '\U{1680}' || ('\U{2000}' <= c <= '\U{200A}')
    || c == '\U{202F}' || c == '\U{205F}' || c == '\U{3000}'
  }

  /** `s.trim() === ''`: `s` has no character other than whitespace. */
  predicate IsBlank(s: string) {
    forall i :: 0 <= i < |s| ==> IsWhitespace(s[i])
  }

  /** `s.charAt(0).toUpperCase() + s.slice(1)`. */
  function Capitalize(s: string): (r: string)
    ensures |r| == |s|
    ensures s != [] ==> r[0] == UpperChar(s[0]) && !IsLower(r[0]) && r[1..] == s[1..]
    ensures s != [] && !IsLower(s[0]) ==> r == s
  {
    if s == [] then [] else [UpperChar(s[0])] + s[1..]
  }

  /** `parts.join(sep)`. */
  function Join(sep: string, parts: seq<string>): string {
    if parts == [] then []
    else if |parts| == 1 then parts[0]
    else parts[0] + sep + Join(sep, parts[1..])
  }

  /** `s.split(c)`: the pieces of `s` between the occurrences of `c`, in order. */
  function Split(c: char, s: string): (parts: seq<string>)
    ensures |parts| >= 1
  {
    if s == [] then [[]]
    else
      var rest := Split(c, s[1..]);
      if s[0] == c then [[]] + rest else [[s[0]] + rest[0]] + rest[1..]
  }

  /** A prefix free of `c` joins the first piece of what follows it. */
  lemma {:induction false} SplitPrefix(c: char, p: string, t: string)
    requires c !in p
    ensures Split(c, p + t) == [p + Split(c, t)[0]] + Split(c, t)[1..]
  {
    if p != [] {
      SplitPrefix(c, p[1..], t);
      assert (p + t)[1..] == p[1..] + t;
      assert [p[0]] + (p[1..] + Split(c, t)[0]) == p + Split(c, t)[0];
    } else {
      var parts := Split(c, t);
      assert p + t == t && p + parts[0] == parts[0];
      assert parts == [parts[0]] + parts[1..];
    }
  }

  /** A separator at the front opens an empty first piece. */
  lemma SplitAfterSeparator(c: char, t: string)
    ensures Split(c, [c] + t) == [[]] + Split(c, t)
  {
    assert ([c] + t)[1..] == t;
  }

  /**
   * `split` undoes `join`: parts that avoid the separator character come back
   * from the joined text, all of them and in order.
   */
  lemma SplitJoin(c: char, parts: seq<string>)
    ensures parts != [] && (forall k :: 0 <= k < |parts| ==> c !in parts[k]) ==> Split(c, Join([c], parts)) == parts
  {
    if parts != [] && (forall k :: 0 <= k < |parts| ==> c !in parts[k]) {
      SplitJoinParts(c, parts);
    }
  }

  lemma {:induction false} SplitJoinParts(c: char, parts: seq<string>)
    requires parts != []
    requires forall k :: 0 <= k < |parts| ==> c !in parts[k]
    ensures Split(c, Join([c], parts)) == parts
  {
    var head := parts[0];
    assert head + [] == head;
    if |parts| == 1 {
      SplitPrefix(c, head, []);
    } else {
      var tail := Join([c], parts[1..]);
      SplitJoinParts(c, parts[1..]);
      SplitAfterSeparator(c, tail);
      SplitPrefix(c, head, [c] + tail);
      assert Join([c], parts) == head + ([c] + tail);
      assert parts == [head] + parts[1..];
    }
  }

  /**
   * When no part contains the separator character, the joined text holds
   * exactly one separator between each pair of neighbouring parts.
   */
  lemma {:induction false} JoinSeparatorCount(c: char, parts: seq<string>)
    requires parts != []
    requires forall k :: 0 <= k < |parts| ==> c !in parts[k]
    ensures multiset(Join([c], parts))[c] == |parts| - 1
  {
    if |parts| > 1 {
      JoinSeparatorCount(c, parts[1..]);
      assert multiset(parts[0] + [c] + Join([c], parts[1..]))
          == multiset(parts[0]) + multiset([c]) + multiset(Join([c], parts[1..]));
      assert multiset(parts[0])[c] == 0;
    } else {
      assert multiset(parts[0])[c] == 0;
    }
  }

  /** A character found in no part and not in the separator is not in the joined text. */
  lemma {:induction false} JoinAvoids(c: char, sep: string, parts: seq<string>)
    requires c !in sep
    requires forall k :: 0 <= k < |parts| ==> c !in parts[k]
    ensures c !in Join(sep, parts)
  {
    if |parts| > 1 {
      JoinAvoids(c, sep, parts[1..]);
    }
  }

  function DigitChar(d: nat): (c: char)
    requires d < 10
    ensures '0' <= c <= '9' && DigitValue(c) == d
  {
    ('0' as int + d) as char
  }

  /** The value of a decimal digit character. */
  function DigitValue(c: char): int {
    c as int - '0' as int
  }

  /** Decimal rendering of a natural number, as `String(n)` writes it: no leading zero but for 0 itself. */
  function NatToString(n: nat): (r: string)
    ensures |r| >= 1
    ensures forall i :: 0 <= i < |r| ==> '0' <= r[i] <= '9'
    ensures r[0] == '0' <==> n == 0
  {
    if n < 10 then [DigitChar(n)] else NatToString(n / 10) + [DigitChar(n % 10)]
  }

  /** Decimal rendering of an integer, with a leading `-` when negative. */
  function IntToString(i: int): (r: string)
    ensures |r| >= 1
    ensures (r[0] == '-') <==> i < 0
    ensures '"' !in r && ',' !in r && '\n' !in r
    ensures ReadInt(r) == i
  {
    NatToStringReadsBack(if i < 0 then -i else i);
    if i < 0 then "-" + NatToString(-i) else NatToString(i)
  }

  /** The number a string of decimal digits spells, most significant digit first. */
  function DigitsValue(s: string): int {
    if s == [] then 0 else 10 * DigitsValue(s[..|s| - 1]) + DigitValue(s[|s| - 1])
  }

  /** An independent reader of decimal integers: an optional `-`, then digits. */
  function ReadInt(s: string): int {
    if s != [] && s[0] == '-' then -DigitsValue(s[1..]) else DigitsValue(s)
  }

  /** The digits `NatToString` writes spell the number back. */
  lemma {:induction false} NatToStringReadsBack(n: nat)
    ensures DigitsValue(NatToString(n)) == n
  {
    var r := NatToString(n);
    if n < 10 {
      assert r[..0] == [];
    } else {
      NatToStringReadsBack(n / 10);
      assert r[..|r| - 1] == NatToString(n / 10);
    }
  }

  /** `s.replace(/"/g, '""')`: every double quote doubled. */
  function DoubleQuotes(s: string): (r: string)
    ensures |r| >= |s|
  {
    if s == [] then [] else (if s[0] == '"' then "\"\"" else [s[0]]) + DoubleQuotes(s[1..])
  }

  /** Doubling quotes adds no character other than the quote. */
  lemma {:induction false} DoubleQuotesAvoids(c: char, s: string)
    requires c != '"' && c !in s
    ensures c !in DoubleQuotes(s)
  {
    if s != [] {
      DoubleQuotesAvoids(c, s[1..]);
    }
  }

  /** The text `"…"` with `s` between the quotes, as written by a template literal. */
  function Quoted(s: string): (r: string)
    ensures |r| == |s| + 2 && r[0] == '"' && r[|r| - 1] == '"' && r[1..|r| - 1] == s
  {
    "\"" + s + "\""
  }

  /**
   * The inside of a quoted comma-separated-values cell read back: `""` stands
   * for one quote and a lone quote cannot occur. This is the reading that the
   * doubling of section 2 of RFC 4180 is designed for.
   */
  function Undouble(s: string): (r: Option<string>)
    decreases |s|
  {
    if s == [] then Some([])
    else if s[0] != '"' then
      match Undouble(s[1..])
      case Some(t) => Some([s[0]] + t)
      case None => None
    else if |s| >= 2 && s[1] == '"' then
      match Undouble(s[2..])
      case Some(t) => Some("\"" + t)
      case None => None
    else None
  }

  /** A quoted cell read back: the surrounding quotes stripped and the inside un-doubled. */
  function ReadQuotedCell(cell: string): (r: Option<string>)
    ensures r.Some? ==> |cell| >= 2 && cell[0] == '"' && cell[|cell| - 1] == '"'
  {
    if |cell| >= 2 && cell[0] == '"' && cell[|cell| - 1] == '"' then Undouble(cell[1..|cell| - 1])
    else None
  }

  lemma {:induction false} UndoubleDoubleQuotes(s: string)
    ensures Undouble(DoubleQuotes(s)) == Some(s)
  {
    if s != [] {
      UndoubleDoubleQuotes(s[1..]);
      var rest := DoubleQuotes(s[1..]);
      assert [s[0]] + s[1..] == s;
      if s[0] == '"' {
        assert DoubleQuotes(s) == "\"\"" + rest;
        assert (("\"\"" + rest)[2..]) == rest;
      } else {
        assert DoubleQuotes(s) == [s[0]] + rest;
        assert ([s[0]] + rest)[1..] == rest;
      }
    }
  }

  /** A quoted cell whose quotes were doubled reads back as the original text. */
  lemma QuotedDoubledRoundTrip(s: string)
    ensures ReadQuotedCell(Quoted(DoubleQuotes(s))) == Some(s)
  {
    UndoubleDoubleQuotes(s);
  }
}
