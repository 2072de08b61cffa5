/**
 * The code parser: free text typed by the user becomes the ordered list of
 * distinct code numbers in 1..999 that the report is built for.
 *
 * The text is stripped of surrounding whitespace, upper-cased and cut at
 * runs of separators (commas, semicolons, whitespace). Each piece loses
 * one leading 'P'; what remains must be all decimal digits, and its value
 * must lie in 1..999, or the piece is dropped without an error. A piece of
 * more digits than `int()` reads raises a ValueError that ends the parse.
 * Repeated codes keep only their first occurrence.
 */
module CodeParser {
  import opened Wrappers

  // ---------------------------------------------------------------------
  // Characters
  // ---------------------------------------------------------------------

  /**
   * The ASCII characters Python counts as whitespace, both for `\s` and for
   * `str.strip()`: space, tab, newline, carriage return, vertical tab, form
   * feed and the four separators 0x1C..0x1F.
   */
  predicate IsWhitespace(c: char)
  {
    c == ' ' || c == '\t' || c == '\n' || c == '\r' || c == 11 as char || c == 12 as char
    || (28 as char <= c <= 31 as char)
  }

  /** The separator class: a comma, a semicolon or whitespace. */
  predicate IsSeparator(c: char)
  {
    c == ',' || c == ';' || IsWhitespace(c)
  }

  predicate IsDigit(c: char)
  {
    '0' <= c <= '9'
  }

  /** A non-empty run of ASCII decimal digits (an empty piece is not a number). */
  predicate IsDigits(s: string)
  {
    |s| > 0 && forall i | 0 <= i < |s| :: IsDigit(s[i])
  }

  predicate NoSeparator(s: string)
  {
    forall i | 0 <= i < |s| :: !IsSeparator(s[i])
  }

  function UpperChar(c: char): char
  {
    if 'a' <= c <= 'z' then (c as int - 32) as char else c
  }

  /** ASCII upper-casing, character by character. */
  function Upper(s: string): string
  {
    seq(|s|, i requires 0 <= i < |s| => UpperChar(s[i]))
  }

  function TrimStart(s: string): string
  {
    if s != [] && IsWhitespace(s[0]) then TrimStart(s[1..]) else s
  }

  function TrimEnd(s: string): string
  {
    if s != [] && IsWhitespace(s[|s| - 1]) then TrimEnd(s[..|s| - 1]) else s
  }

  /** Removal of leading and trailing whitespace (commas and semicolons stay). */
  function Strip(s: string): string
  {
    TrimEnd(TrimStart(s))
  }

  /** The value of a string of decimal digits; leading zeros add nothing. */
  function DigitsValue(s: string): nat
    requires forall i | 0 <= i < |s| :: IsDigit(s[i])
  {
    Horner(0, s)
  }

  /** Reads the digits of s after the value acc read so far. */
  function Horner(acc: nat, s: string): nat
    requires forall i | 0 <= i < |s| :: IsDigit(s[i])
    decreases |s|
  {
    if s == [] then acc
    else
      assert IsDigit(s[0]);
      Horner(acc * 10 + (s[0] as int - '0' as int), s[1..])
  }

  // ---------------------------------------------------------------------
  // Splitting
  // ---------------------------------------------------------------------

  /**
   * The pieces between maximal runs of separators, as a regular-expression
   * split on `[,\s;]+` gives them: a separator run at either end leaves an
   * empty piece there, and the empty text is one empty piece.
   */
  function Split(s: string): (pieces: seq<string>)
    ensures |pieces| >= 1
  {
    if s == [] then [[]]
    else
      var rest := Split(s[1..]);
      if !IsSeparator(s[0]) then [[s[0]] + rest[0]] + rest[1..]
      else if |s| > 1 && IsSeparator(s[1]) then rest
      else [[]] + rest
  }

  // ---------------------------------------------------------------------
  // Tokens and codes
  // ---------------------------------------------------------------------

  /**
   * The most digits `int()` reads from a decimal string: CPython 3.11 and
   * later, and the 3.10.7, 3.9.14, 3.8.14 and 3.7.14 security releases,
   * raise a ValueError for a longer one, leading zeros counted.
   */
  const MaxStrDigits := 4300

  /** A piece that is all digits once one leading 'P' is removed, but more of them than `int()` reads. */
  predicate TooLong(token: string)
  {
    token != [] &&
    var digits := if token[0] == 'P' then token[1..] else token;
    IsDigits(digits) && |digits| > MaxStrDigits
  }

  /** Whether `int()` raises on one of the pieces, which ends the parse with a ValueError. */
  predicate Raises(tokens: seq<string>)
  {
    exists k | 0 <= k < |tokens| :: TooLong(tokens[k])
  }

  /**
   * The code one piece stands for, or None when the piece is skipped: it is
   * empty, it is not all digits once one leading 'P' is removed, or its value
   * lies outside 1..999. A piece that is too long has no code either; the
   * parse raises on it (`Raises`).
   */
  function TokenCode(token: string): (r: Option<int>)
    ensures r.Some? ==> 1 <= r.value <= 999
  {
    if token == [] then None
    else
      var digits := if token[0] == 'P' then token[1..] else token;
      if !IsDigits(digits) || |digits| > MaxStrDigits then None
      else
        var n := DigitsValue(digits);
        if 1 <= n <= 999 then Some(n) else None
  }

  /** The codes of the pieces, in order, skipped pieces left out. */
  function Codes(tokens: seq<string>): seq<int>
  {
    if tokens == [] then [] else ToSeq(TokenCode(tokens[0])) + Codes(tokens[1..])
  }

  // ---------------------------------------------------------------------
  // Stable de-duplication
  // ---------------------------------------------------------------------

  predicate Distinct(s: seq<int>)
  {
    forall i, j | 0 <= i < j < |s| :: s[i] != s[j]
  }

  /**
   * d lists its elements in the order in which they first occur in s: every
   * occurrence in s of a later element of d comes after an occurrence of each
   * earlier one.
   */
  predicate FirstOccurrenceOrder(d: seq<int>, s: seq<int>)
  {
    forall i, j, k | 0 <= i < j < |d| && 0 <= k < |s| && s[k] == d[j] :: d[i] in s[..k]
  }

  /** s with every repeat of an earlier element removed. */
  function Dedup(s: seq<int>): seq<int>
  {
    if s == [] then []
    else
      var d := Dedup(s[..|s| - 1]);
      if s[|s| - 1] in d then d else d + [s[|s| - 1]]
  }

  /** Pieces written out with one separator character between neighbours. */
  function JoinPieces(pieces: seq<string>, sep: char): string
  {
    if pieces == [] then []
    else if |pieces| == 1 then pieces[0]
    else pieces[0] + [sep] + JoinPieces(pieces[1..], sep)
  }

  /**
   * What the parser returns for a text, or None when it raises: the list
   * then has no repeats and holds only codes in 1..999.
   */
  function Parse(text: string): (r: Option<seq<int>>)
    ensures r.Some? ==> Distinct(r.value)
    ensures r.Some? ==> forall i | 0 <= i < |r.value| :: 1 <= r.value[i] <= 999
  {
    var tokens := Split(Upper(Strip(text)));
    if Raises(tokens) then None
    else
      WellFormedCodes(tokens);
      Some(Dedup(Codes(tokens)))
  }

  // ---------------------------------------------------------------------
  // The parser, as the source runs it
  // ---------------------------------------------------------------------

  /**
   * Cuts the normalised text into pieces, collects their codes in a first
   * loop, then drops repeats in a second loop. None stands for the
   * ValueError of the first loop, which `parse_codes` does not catch.
   */
  method ParseCodes(text: string) returns (norm: Option<seq<int>>)
    ensures norm == Parse(text)
  {
    var raw := Split(Upper(Strip(text)));
    var codes := CollectCodes(raw);
    if codes.None? {
      return None;
    }
    var kept := DropRepeats(codes.value);
    norm := Some(kept);
  }

  /**
   * The first loop: each piece loses one leading 'P' and is kept if it reads
   * as a code; a piece with more digits than `int()` reads stops the loop
   * with a ValueError, given here as None.
   */
  method CollectCodes(raw: seq<string>) returns (codes: Option<seq<int>>)
    ensures codes == if Raises(raw) then None else Some(Codes(raw))
  {
    var collected := [];
    for i := 0 to |raw|
      invariant collected == Codes(raw[..i])
      invariant !Raises(raw[..i])
    {
      CodesSnoc(raw[..i], raw[i]);
      RaisesSnoc(raw[..i], raw[i]);
      assert raw[..i + 1] == raw[..i] + [raw[i]];
      var token := raw[i];
      // an empty piece, or one that is not all digits, is skipped
      if token != [] {
        if token[0] == 'P' {
          token := token[1..];
        }
        if IsDigits(token) {
          if |token| > MaxStrDigits {
            assert TooLong(raw[i]);
            return None;
          }
          var n := DigitsValue(token);
          if 1 <= n <= 999 {
            collected := collected + [n];
          }
        }
      }
    }
    assert raw[..|raw|] == raw;
    codes := Some(collected);
  }

  /** The second loop: a set of the codes seen so far decides which to keep. */
  method DropRepeats(codes: seq<int>) returns (norm: seq<int>)
    ensures norm == Dedup(codes)
  {
    var seen: set<int> := {};
    norm := [];
    for i := 0 to |codes|
      invariant norm == Dedup(codes[..i])
      invariant forall x :: x in seen <==> x in norm
    {
      assert codes[..i + 1][..i] == codes[..i];
      var n := codes[i];
      if n !in seen {
        norm := norm + [n];
        seen := seen + {n};
      }
    }
    assert codes[..|codes|] == codes;
  }

  // ---------------------------------------------------------------------
  // Lemmas
  // ---------------------------------------------------------------------

  /** Every listed code lies in 1..999. */
  lemma {:induction false} CodesInRange(tokens: seq<string>)
    ensures forall i | 0 <= i < |Codes(tokens)| :: 1 <= Codes(tokens)[i] <= 999
  {
    if tokens != [] {
      CodesInRange(tokens[1..]);
    }
  }

  /** Dedup neither loses nor invents an element. */
  lemma {:induction false} DedupMembers(s: seq<int>)
    ensures forall x :: x in Dedup(s) <==> x in s
  {
    if s != [] {
      var p := s[..|s| - 1];
      DedupMembers(p);
      assert s == p + [s[|s| - 1]];
    }
  }

  /** Dedup leaves no element twice. */
  lemma {:induction false} DedupDistinct(s: seq<int>)
    ensures Distinct(Dedup(s))
  {
    if s != [] {
      DedupDistinct(s[..|s| - 1]);
    }
  }

  /** The codes of the pieces, repeats dropped, have no repeats and lie in 1..999. */
  lemma WellFormedCodes(tokens: seq<string>)
    ensures Distinct(Dedup(Codes(tokens)))
    ensures forall i | 0 <= i < |Dedup(Codes(tokens))| :: 1 <= Dedup(Codes(tokens))[i] <= 999
  {
    var codes := Codes(tokens);
    var d := Dedup(codes);
    DedupDistinct(codes);
    DedupMembers(codes);
    CodesInRange(tokens);
    forall i | 0 <= i < |d| ensures 1 <= d[i] <= 999 {
      var x := d[i];
      assert x in Dedup(codes);
      var k :| 0 <= k < |codes| && codes[k] == x;
    }
  }

  /** Codes distributes over concatenation of piece lists. */
  lemma {:induction false} CodesAppend(a: seq<string>, b: seq<string>)
    ensures Codes(a + b) == Codes(a) + Codes(b)
  {
    if a == [] {
      assert a + b == b;
    } else {
      assert (a + b)[1..] == a[1..] + b;
      CodesAppend(a[1..], b);
    }
  }

  /** One more piece makes the parse raise exactly when it is too long itself. */
  lemma RaisesSnoc(a: seq<string>, t: string)
    ensures Raises(a + [t]) <==> Raises(a) || TooLong(t)
  {
    if Raises(a) {
      var k :| 0 <= k < |a| && TooLong(a[k]);
      assert (a + [t])[k] == a[k];
    }
    if TooLong(t) {
      assert (a + [t])[|a|] == t;
    }
    if Raises(a + [t]) {
      var k :| 0 <= k < |a + [t]| && TooLong((a + [t])[k]);
      if k < |a| {
        assert (a + [t])[k] == a[k];
      }
    }
  }

  /** Pieces no longer than `int()` reads never make the parse raise. */
  lemma ShortPieces(tokens: seq<string>)
    requires forall k | 0 <= k < |tokens| :: |tokens[k]| <= MaxStrDigits
    ensures !Raises(tokens)
  {
    forall k | 0 <= k < |tokens| ensures !TooLong(tokens[k]) {
      assert |tokens[k]| <= MaxStrDigits;
    }
  }

  lemma CodesSnoc(a: seq<string>, t: string)
    ensures Codes(a + [t]) == Codes(a) + ToSeq(TokenCode(t))
  {
    CodesAppend(a, [t]);
    assert [t][1..] == [];
  }

  /** A code is listed exactly when some piece stands for it. */
  lemma {:induction false} CodesMembers(tokens: seq<string>, n: int)
    ensures n in Codes(tokens) <==> exists k | 0 <= k < |tokens| :: TokenCode(tokens[k]) == Some(n)
  {
    if tokens != [] {
      CodesMembers(tokens[1..], n);
      if TokenCode(tokens[0]) == Some(n) {
        assert n in Codes(tokens);
      } else if n in Codes(tokens[1..]) {
        var k :| 1 <= k + 1 < |tokens| && TokenCode(tokens[1..][k]) == Some(n);
        assert TokenCode(tokens[k + 1]) == Some(n);
      } else {
        assert n !in Codes(tokens);
        forall k | 0 <= k < |tokens| ensures TokenCode(tokens[k]) != Some(n) {
          if k > 0 { assert tokens[k] == tokens[1..][k - 1]; }
        }
      }
    }
  }

  /** Dedup keeps first occurrences in their order. */
  lemma {:induction false} DedupOrder(s: seq<int>)
    ensures FirstOccurrenceOrder(Dedup(s), s)
  {
    if s != [] {
      var p, y := s[..|s| - 1], s[|s| - 1];
      assert s == p + [y];
      DedupOrder(p);
      DedupMembers(p);
      var dp, d := Dedup(p), Dedup(s);
      forall i, j, k | 0 <= i < j < |d| && 0 <= k < |s| && s[k] == d[j]
        ensures d[i] in s[..k]
      {
        assert d[i] in dp && d[i] == dp[i];
        if k < |p| {
          assert s[..k] == p[..k];
          assert p[k] == d[j] && d[j] in dp;
          assert j < |dp|;
          assert dp[j] == p[k];
          assert dp[i] in p[..k];
        } else if j < |dp| {
          assert d[j] == dp[j] == y && y in p;
          var k' :| 0 <= k' < |p| && p[k'] == y;
          assert d[i] in p[..k'];
          assert p[..k'] <= s[..k];
        } else {
          assert s[..k] == p;
        }
      }
    }
  }

  /** A list without repeats is left as it is. */
  lemma {:induction false} DedupOfDistinct(s: seq<int>)
    requires Distinct(s)
    ensures Dedup(s) == s
  {
    if s != [] {
      var p := s[..|s| - 1];
      assert Distinct(p);
      DedupOfDistinct(p);
      DedupMembers(p);
      assert s[|s| - 1] !in p;
      assert p + [s[|s| - 1]] == s;
    }
  }

  /**
   * A stable de-duplication is determined by its three properties: the same
   * elements, no repeats, first-occurrence order.
   */
  lemma {:induction false} DedupUnique(d: seq<int>, s: seq<int>)
    requires Distinct(d) && FirstOccurrenceOrder(d, s)
    requires forall x :: x in d <==> x in s
    ensures d == Dedup(s)
  {
    if s == [] {
      NoMembers(d, s);
    } else {
      var p, y := s[..|s| - 1], s[|s| - 1];
      assert s == p + [y];
      forall i, j, k | 0 <= i < j < |d| && 0 <= k < |p| && p[k] == d[j]
        ensures d[i] in p[..k]
      {
        assert s[k] == d[j] && s[..k] == p[..k];
      }
      if y in p {
        forall x ensures x in d <==> x in p {
          assert x in s <==> x in p;
        }
        DedupUnique(d, p);
        DedupMembers(p);
        assert y in Dedup(p);
      } else {
        assert y in d;
        var m :| 0 <= m < |d| && d[m] == y;
        var last := |d| - 1;
        if m < last {
          // the last element of d is not y, so it occurs in p, and y would
          // occur before it
          assert d[last] in d && d[last] != y;
          assert s[..|p|] == p;
          OrderedBefore(d, s, m, last, |p|);
          assert false;
        }
        var q := d[..last];
        assert d == q + [y];
        forall x ensures x in q <==> x in p {
          if x in q { assert x in d && x != y; }
          if x in p { assert x in d && x != y; }
        }
        forall i, j, k | 0 <= i < j < |q| && 0 <= k < |p| && p[k] == q[j]
          ensures q[i] in p[..k]
        {
          assert d[i] == q[i] && d[j] == q[j];
        }
        DedupUnique(q, p);
        DedupMembers(p);
      }
    }
  }

  lemma NoMembers(d: seq<int>, s: seq<int>)
    requires forall x :: x in d <==> x in s
    requires s == []
    ensures d == []
  {
    if d != [] {
      HeadIsShared(d, s);
      assert false;
    }
  }

  lemma HeadIsShared(d: seq<int>, s: seq<int>)
    requires forall x :: x in d <==> x in s
    requires d != []
    ensures d[0] in s
  {
    var y := d[0];
    assert y in d;
  }

  /** Under first-occurrence order, an earlier element of d occurs in every prefix of s holding a later one. */
  lemma OrderedBefore(d: seq<int>, s: seq<int>, i: int, j: int, n: int)
    requires FirstOccurrenceOrder(d, s)
    requires 0 <= i < j < |d| && 0 <= n <= |s| && d[j] in s[..n]
    ensures d[i] in s[..n]
  {
    var k :| 0 <= k < n && s[..n][k] == d[j];
    assert s[k] == d[j];
    assert s[..k] <= s[..n];
  }

  // ---------------------------------------------------------------------
  // Splitting lemmas
  // ---------------------------------------------------------------------

  /** A piece without separators stays whole, and glues onto the first piece of what follows. */
  lemma {:induction false} SplitPrefix(t: string, s: string)
    requires NoSeparator(t)
    ensures Split(t + s) == [t + Split(s)[0]] + Split(s)[1..]
  {
    if t != [] {
      assert (t + s)[1..] == t[1..] + s;
      assert (t + s)[0] == t[0];
      SplitPrefix(t[1..], s);
      assert [t[0]] + (t[1..] + Split(s)[0]) == t + Split(s)[0];
    } else {
      var pieces := Split(s);
      assert t + s == s;
      assert [] + pieces[0] == pieces[0];
      assert [pieces[0]] + pieces[1..] == pieces;
    }
  }

  /** The pieces of a text depend only on the pieces of its tail, whatever is put in front. */
  lemma {:induction false} SplitCongruence(x: string, s1: string, s2: string)
    requires Split(s1) == Split(s2)
    ensures Split(x + s1) == Split(x + s2)
    decreases |x|
  {
    if x != [] {
      var ch := x[|x| - 1];
      var x0 := x[..|x| - 1];
      assert x + s1 == x0 + ([ch] + s1);
      assert x + s2 == x0 + ([ch] + s2);
      SplitStartsWithSeparator(s1);
      SplitStartsWithSeparator(s2);
      assert ([ch] + s1)[1..] == s1 && ([ch] + s2)[1..] == s2;
      SplitCongruence(x0, [ch] + s1, [ch] + s2);
    } else {
      assert x + s1 == s1 && x + s2 == s2;
    }
  }

  /** The first piece is empty exactly when the text is empty or starts with a separator; only the empty text is one piece and empty. */
  lemma SplitStartsWithSeparator(s: string)
    ensures (s != [] && IsSeparator(s[0])) <==> (s != [] && Split(s)[0] == [])
    ensures Split(s) == [[]] <==> s == []
  {
    if s != [] && IsSeparator(s[0]) {
      SplitStartsWithSeparator(s[1..]);
    }
  }

  /** A run of separators cuts the text like a single separator. */
  lemma SeparatorRun(a: string, c: char, d: char, b: string)
    requires IsSeparator(c) && IsSeparator(d)
    ensures Split(a + [c, d] + b) == Split(a + [d] + b)
  {
    assert ([c, d] + b)[1..] == [d] + b;
    assert Split([c, d] + b) == Split([d] + b);
    SplitCongruence(a, [c, d] + b, [d] + b);
    assert a + [c, d] + b == a + ([c, d] + b);
    assert a + [d] + b == a + ([d] + b);
  }

  /** Which separator character stands between two parts does not matter. */
  lemma SeparatorKind(a: string, c: char, d: char, b: string)
    requires IsSeparator(c) && IsSeparator(d)
    ensures Split(a + [c] + b) == Split(a + [d] + b)
  {
    assert ([c] + b)[1..] == b && ([d] + b)[1..] == b;
    assert Split([c] + b) == Split([d] + b);
    SplitCongruence(a, [c] + b, [d] + b);
    assert a + [c] + b == a + ([c] + b);
    assert a + [d] + b == a + ([d] + b);
  }

  /** Non-empty pieces without separators, joined by one separator, split back into themselves. */
  lemma {:induction false} SplitJoin(pieces: seq<string>, sep: char)
    requires IsSeparator(sep)
    requires forall k | 0 <= k < |pieces| :: pieces[k] != [] && NoSeparator(pieces[k])
    ensures pieces != [] ==> Split(JoinPieces(pieces, sep)) == pieces
  {
    if |pieces| == 1 {
      SplitPrefix(pieces[0], []);
      assert pieces[0] + [] == pieces[0];
    } else if |pieces| > 1 {
      var rest := JoinPieces(pieces[1..], sep);
      SplitJoin(pieces[1..], sep);
      assert rest[0] == pieces[1][0] by { JoinStartsWithFirst(pieces[1..], sep); }
      assert ([sep] + rest)[1..] == rest;
      assert Split([sep] + rest) == [[]] + Split(rest);
      SplitPrefix(pieces[0], [sep] + rest);
      assert pieces[0] + [sep] + rest == pieces[0] + ([sep] + rest);
      assert pieces[0] + [] == pieces[0];
      assert [pieces[0]] + pieces[1..] == pieces;
    }
  }

  lemma {:induction false} JoinStartsWithFirst(pieces: seq<string>, sep: char)
    requires pieces != [] && pieces[0] != []
    ensures JoinPieces(pieces, sep) != [] && JoinPieces(pieces, sep)[0] == pieces[0][0]
  {
  }

  // ---------------------------------------------------------------------
  // Token rules
  // ---------------------------------------------------------------------

  /** Exactly one leading 'P' is removed: a second one makes the piece fail. */
  lemma OnlyOnePrefix(s: string)
    ensures TokenCode(['P', 'P'] + s) == None
  {
    assert (['P', 'P'] + s)[1..] == ['P'] + s;
    assert !IsDigit((['P'] + s)[0]);
  }

  /** A 'P' in front of a piece that does not itself start with 'P' changes nothing. */
  lemma PrefixIsOptional(d: string)
    requires d != [] && d[0] != 'P'
    ensures TokenCode(['P'] + d) == TokenCode(d)
  {
    assert (['P'] + d)[1..] == d;
  }

  /** Pieces accepted: with or without the 'P'. */
  lemma TokensAccepted()
    ensures TokenCode("P0171") == Some(171) && TokenCode("0420") == Some(420)
    ensures TokenCode("P300") == Some(300)
  {
    PrefixIsOptional("0171");
    assert "P0171" == ['P'] + "0171";
    PrefixIsOptional("300");
    assert "P300" == ['P'] + "300";
  }

  /**
   * Leading zeros do not change what a piece stands for, as long as the
   * digits stay within what `int()` reads; past that the piece is too long.
   */
  lemma LeadingZeros(z: string, d: string)
    requires forall i | 0 <= i < |z| :: z[i] == '0'
    requires IsDigits(d)
    ensures |z + d| <= MaxStrDigits ==> TokenCode(z + d) == TokenCode(d)
    ensures |z + d| > MaxStrDigits ==> TooLong(z + d)
  {
    HornerZeros(z, d);
    if z != [] {
      assert (z + d)[0] == '0';
    } else {
      assert z + d == d;
    }
  }

  /**
   * "P", zeros and "171" as the whole text: it parses to 171 while the
   * digits fit what `int()` reads, and raises once the zeros push them past it.
   */
  lemma PaddedCode(z: string)
    requires forall i | 0 <= i < |z| :: z[i] == '0'
    ensures |z| + 3 <= MaxStrDigits ==> Parse(['P'] + z + "171") == Some([171])
    ensures |z| + 3 > MaxStrDigits ==> Parse(['P'] + z + "171") == None
  {
    var t := ['P'] + z + "171";
    PaddedPiece(z);
    LeadingZeros(z, "171");
    if |z| + 3 <= MaxStrDigits {
      PrefixIsOptional(z + "171");
      assert !TooLong([t][0]);
      assert Codes([t]) == [171];
      assert Dedup([171]) == [171] by { assert [171][..0] == []; }
      ParseOfPieces(t, [t]);
    } else {
      assert TooLong([t][0]);
    }
  }

  /** "P", zeros and "171" is a single piece, whose digits follow the 'P'. */
  lemma PaddedPiece(z: string)
    requires forall i | 0 <= i < |z| :: z[i] == '0'
    ensures IsDigits(z + "171")
    ensures ['P'] + z + "171" == ['P'] + (z + "171") && (['P'] + z + "171")[1..] == z + "171"
    ensures Split(Upper(Strip(['P'] + z + "171"))) == [['P'] + z + "171"]
  {
    var t := ['P'] + z + "171";
    var digits := z + "171";
    assert t == ['P'] + digits && t[1..] == digits;
    assert IsDigits(digits) by {
      forall i | 0 <= i < |digits| ensures IsDigit(digits[i]) {
        if i < |z| { assert digits[i] == z[i]; } else { assert digits[i] == "171"[i - |z|]; }
      }
    }
    assert NoLower(t) by {
      forall i | 1 <= i < |t| ensures t[i] == digits[i - 1] {}
    }
    assert NoSeparator(t) by {
      forall i | 1 <= i < |t| ensures t[i] == digits[i - 1] {}
    }
    StripOfTrimmed(t);
    UpperOfUpper(t);
    SplitPrefix(t, []);
    assert t + [] == t;
  }

  lemma TokenLongPadding()
    ensures TokenCode("0000000999") == Some(999)
  {
    LeadingZeros("0000000", "999");
    assert "0000000999" == "0000000" + "999";
  }

  /** Pieces dropped: a double prefix, a bare prefix, the empty piece. */
  lemma TokensMalformed()
    ensures TokenCode("PP171") == None && TokenCode("P") == None && TokenCode("") == None
    ensures TokenCode("P01A1") == None && TokenCode("GARBAGE") == None
  {
    OnlyOnePrefix("171");
    assert "PP171" == ['P', 'P'] + "171";
    assert "P01A1"[1..] == "01A1" && !IsDigit("01A1"[2]);
  }

  /** Pieces dropped for their value: zero, and anything above 999. */
  lemma TokensOutOfRange()
    ensures TokenCode("0") == None && TokenCode("0000") == None
    ensures TokenCode("1000") == None && TokenCode("P1000") == None
  {
    PrefixIsOptional("1000");
    assert "P1000" == ['P'] + "1000";
  }

  /** One more digit on the right: ten times the value, plus the digit. */
  lemma {:induction false} HornerSnoc(acc: nat, s: string, c: char)
    requires forall i | 0 <= i < |s| :: IsDigit(s[i])
    requires IsDigit(c)
    ensures forall i | 0 <= i < |s + [c]| :: IsDigit((s + [c])[i])
    ensures Horner(acc, s + [c]) == Horner(acc, s) * 10 + (c as int - '0' as int)
    decreases |s|
  {
    if s != [] {
      assert (s + [c])[1..] == s[1..] + [c];
      HornerSnoc(acc * 10 + (s[0] as int - '0' as int), s[1..], c);
    }
  }

  /** Leading zeros do not change the value. */
  lemma {:induction false} HornerZeros(z: string, s: string)
    requires forall i | 0 <= i < |z| :: z[i] == '0'
    requires forall i | 0 <= i < |s| :: IsDigit(s[i])
    ensures forall i | 0 <= i < |z + s| :: IsDigit((z + s)[i])
    ensures Horner(0, z + s) == Horner(0, s)
  {
    if z != [] {
      assert (z + s)[1..] == z[1..] + s;
      HornerZeros(z[1..], s);
    } else {
      assert z + s == s;
    }
  }

  // ---------------------------------------------------------------------
  // Whole texts
  // ---------------------------------------------------------------------

  predicate NoLower(s: string)
  {
    forall i | 0 <= i < |s| :: !('a' <= s[i] <= 'z')
  }

  /** Text without lower-case letters is left alone by upper-casing. */
  lemma UpperOfUpper(s: string)
    requires NoLower(s)
    ensures Upper(s) == s
  {
  }

  /** Text that neither starts nor ends with whitespace is left alone by stripping. */
  lemma StripOfTrimmed(s: string)
    requires s != [] ==> !IsWhitespace(s[0]) && !IsWhitespace(s[|s| - 1])
    ensures Strip(s) == s
  {
  }

  lemma {:induction false} JoinNoLower(pieces: seq<string>, sep: char)
    requires !('a' <= sep <= 'z')
    requires forall k | 0 <= k < |pieces| :: NoLower(pieces[k])
    ensures NoLower(JoinPieces(pieces, sep))
  {
    if |pieces| > 1 {
      JoinNoLower(pieces[1..], sep);
      var rest := JoinPieces(pieces[1..], sep);
      assert JoinPieces(pieces, sep) == pieces[0] + ([sep] + rest);
      forall i | 0 <= i < |JoinPieces(pieces, sep)|
        ensures !('a' <= JoinPieces(pieces, sep)[i] <= 'z')
      {
        if i > |pieces[0]| {
          assert JoinPieces(pieces, sep)[i] == rest[i - |pieces[0]| - 1];
        }
      }
    }
  }

  lemma {:induction false} JoinEndsWithLast(pieces: seq<string>, sep: char)
    requires pieces != [] && pieces[|pieces| - 1] != []
    ensures var j, l := JoinPieces(pieces, sep), pieces[|pieces| - 1]; j != [] && j[|j| - 1] == l[|l| - 1]
  {
    if |pieces| > 1 {
      JoinEndsWithLast(pieces[1..], sep);
    }
  }

  /**
   * Upper-case pieces without separators, written out with single spaces
   * between them, parse to the de-duplicated codes of the pieces, unless one
   * of them is too long.
   */
  lemma ParseJoined(pieces: seq<string>)
    requires pieces != []
    requires forall k | 0 <= k < |pieces| :: pieces[k] != [] && NoSeparator(pieces[k]) && NoLower(pieces[k])
    ensures Parse(JoinPieces(pieces, ' ')) == if Raises(pieces) then None else Some(Dedup(Codes(pieces)))
  {
    var text := JoinPieces(pieces, ' ');
    JoinStartsWithFirst(pieces, ' ');
    JoinEndsWithLast(pieces, ' ');
    var l := pieces[|pieces| - 1];
    assert !IsSeparator(pieces[0][0]) && !IsSeparator(l[|l| - 1]);
    StripOfTrimmed(text);
    JoinNoLower(pieces, ' ');
    UpperOfUpper(text);
    SplitJoin(pieces, ' ');
  }

  /** The worked example: a repeat is dropped, a piece without 'P' is accepted. */
  lemma ParseExample()
    ensures Parse("P0300 P0171 P0300 0420") == Some([300, 171, 420])
  {
    var pieces := ["P0300", "P0171", "P0300", "0420"];
    ExampleJoin(pieces);
    ShortPieces(pieces);
    ParseJoined(pieces);
    ExampleCodes(pieces);
    ExampleDedup();
  }

  lemma ExampleJoin(pieces: seq<string>)
    requires pieces == ["P0300", "P0171", "P0300", "0420"]
    ensures JoinPieces(pieces, ' ') == "P0300 P0171 P0300 0420"
  {
    assert pieces[3..] == ["0420"];
    assert pieces[2..][1..] == pieces[3..];
    assert JoinPieces(pieces[2..], ' ') == "P0300 0420";
    assert pieces[1..][1..] == pieces[2..];
    assert JoinPieces(pieces[1..], ' ') == "P0171 P0300 0420";
  }

  lemma ExampleCodes(pieces: seq<string>)
    requires pieces == ["P0300", "P0171", "P0300", "0420"]
    ensures Codes(pieces) == [300, 171, 300, 420]
  {
    PrefixIsOptional("0300");
    assert "P0300" == ['P'] + "0300";
    TokensAccepted();
    assert pieces[3..] == ["0420"] && pieces[3..][1..] == [];
    assert Codes(pieces[3..]) == [420];
    assert pieces[2..][1..] == pieces[3..];
    assert Codes(pieces[2..]) == [300, 420];
    assert pieces[1..][1..] == pieces[2..];
    assert Codes(pieces[1..]) == [171, 300, 420];
  }

  lemma ExampleDedup()
    ensures Dedup([300, 171, 300, 420]) == [300, 171, 420]
  {
    assert Dedup([300]) == [300] by { assert [300][..0] == []; }
    assert Dedup([300, 171]) == [300, 171] by { assert [300, 171][..1] == [300]; }
    assert Dedup([300, 171, 300]) == [300, 171] by { assert [300, 171, 300][..2] == [300, 171]; }
    assert [300, 171, 300, 420][..3] == [300, 171, 300];
  }

  /** A text whose pieces are known parses to their codes, repeats dropped, when none of them is too long. */
  lemma ParseOfPieces(text: string, pieces: seq<string>)
    requires Split(Upper(Strip(text))) == pieces
    requires !Raises(pieces)
    ensures Parse(text) == Some(Dedup(Codes(pieces)))
  {
  }

  /** Lower case and a comma followed by a space are read like the plain form. */
  lemma ParseLowerCaseAndComma()
    ensures Parse("p0171, P300") == Some([171, 300])
  {
    var pieces := ["P0171", "P300"];
    LowerCaseAndCommaPieces("p0171, P300");
    ShortPieces(pieces);
    TokensAccepted();
    assert Codes(pieces) == [171, 300];
    DedupOfDistinct([171, 300]);
    ParseOfPieces("p0171, P300", pieces);
  }

  lemma LowerCaseAndCommaPieces(text: string)
    requires text == "p0171, P300"
    ensures Split(Upper(Strip(text))) == ["P0171", "P300"]
  {
    assert Strip(text) == text;
    assert Upper(text) == "P0171" + [',', ' '] + "P300";
    SeparatorRun("P0171", ',', ' ', "P300");
    assert "P0171" + [' '] + "P300" == JoinPieces(["P0171", "P300"], ' ');
    SplitJoin(["P0171", "P300"], ' ');
  }

  /** Text without any code yields the empty list, and no error. */
  lemma ParseGarbage()
    ensures Parse("garbage text") == Some([])
  {
    var pieces := ["GARBAGE", "TEXT"];
    GarbagePieces("garbage text");
    ShortPieces(pieces);
    assert TokenCode("GARBAGE") == None && TokenCode("TEXT") == None;
    assert Codes(pieces) == [];
    ParseOfPieces("garbage text", pieces);
  }

  lemma GarbagePieces(text: string)
    requires text == "garbage text"
    ensures Split(Upper(Strip(text))) == ["GARBAGE", "TEXT"]
  {
    assert Strip(text) == text;
    assert Upper(text) == JoinPieces(["GARBAGE", "TEXT"], ' ');
    SplitJoin(["GARBAGE", "TEXT"], ' ');
  }
}
