/** The two pieces of the Java standard library whose behaviour the view layer
    depends on: `String.split` (with a literal separator, and with the line
    pattern `\r?\n`) and `Integer.parseInt`. */
module JavaText {

  datatype Option<T> = None | Some(value: T)

  /** Where the first occurrence of `sep` in `s` begins, if there is one. */
  function Find(s: string, sep: string): (at: Option<nat>)
    requires |sep| > 0
    ensures at.Some? ==> at.value + |sep| <= |s| && s[at.value..at.value + |sep|] == sep
    decreases |s|
  {
    if |s| < |sep| then None
    else if s[..|sep|] == sep then Some(0)
    else
      match Find(s[1..], sep)
      case None => None
      case Some(i) => Some(i + 1)
  }

  /** A one-character separator is found at its first occurrence: it occurs
      nowhere before the place found, and nowhere at all when none is found. */
  lemma {:induction false} FindFirst(s: string, sep: string)
    requires |sep| == 1
    ensures Find(s, sep).None? ==> sep[0] !in s
    ensures Find(s, sep).Some? ==> sep[0] !in s[..Find(s, sep).value]
    decreases |s|
  {
    if |s| >= 1 && s[..1] != sep {
      assert s[..1] == [s[0]] && sep == [sep[0]];
      FindFirst(s[1..], sep);
      assert s == [s[0]] + s[1..];
      match Find(s[1..], sep)
      case None =>
      case Some(i) =>
        assert s[..i + 1] == [s[0]] + s[1..][..i];
    }
  }

  /** No piece split off at a one-character separator contains it. */
  lemma {:induction false} SplitOnPiecesFree(s: string, sep: string)
    requires |sep| > 0
    ensures |sep| == 1 ==> forall k :: 0 <= k < |SplitOn(s, sep)| ==> sep[0] !in SplitOn(s, sep)[k]
    decreases |s|
  {
    if |sep| == 1 { FindFirst(s, sep); }
    match Find(s, sep)
    case None =>
    case Some(i) =>
      SplitOnPiecesFree(s[i + |sep|..], sep);
  }

  /** The pieces of `s` between the non-overlapping occurrences of `sep`,
      scanned left to right; one more piece than there are occurrences. */
  function SplitOn(s: string, sep: string): (pieces: seq<string>)
    requires |sep| > 0
    ensures |pieces| >= 1
    decreases |s|
  {
    match Find(s, sep)
    case None => [s]
    case Some(i) => [s[..i]] + SplitOn(s[i + |sep|..], sep)
  }

  /** The pieces glued back together with `sep` between neighbours. */
  function Join(pieces: seq<string>, sep: string): string
    requires |pieces| >= 1
  {
    if |pieces| == 1 then pieces[0] else pieces[0] + sep + Join(pieces[1..], sep)
  }

  /** Joining a first piece in front of further pieces. */
  lemma JoinCons(first: string, rest: seq<string>, sep: string)
    requires |rest| >= 1
    ensures Join([first] + rest, sep) == first + sep + Join(rest, sep)
  {
    assert ([first] + rest)[1..] == rest;
  }

  /** Splitting loses nothing: the pieces join back to the original text. */
  lemma {:induction false} JoinSplitOn(s: string, sep: string)
    requires |sep| > 0
    ensures Join(SplitOn(s, sep), sep) == s
    decreases |s|
  {
    match Find(s, sep)
    case None =>
    case Some(i) =>
      var tail := s[i + |sep|..];
      JoinSplitOn(tail, sep);
      assert SplitOn(s, sep) == [s[..i]] + SplitOn(tail, sep);
      JoinCons(s[..i], SplitOn(tail, sep), sep);
      Reassemble(s, i, |sep|);
  }

  /** A text is its part before `i`, the `n` characters from `i`, and the rest. */
  lemma Reassemble(s: string, i: nat, n: nat)
    requires i + n <= |s|
    ensures s[..i] + s[i..i + n] + s[i + n..] == s
  {
  }

  /** A text that cannot start the separator anywhere is a single piece. */
  lemma SplitOnWithout(p: string, sep: string)
    requires |sep| > 0 && sep[0] !in p
    ensures SplitOn(p, sep) == [p]
  {
  }

  /** The first occurrence after a piece that cannot start the separator is
      the one right behind the piece. */
  lemma {:induction false} FindAfterPiece(p: string, sep: string, t: string)
    requires |sep| > 0 && sep[0] !in p
    ensures Find(p + sep + t, sep) == Some(|p|)
    decreases |p|
  {
    var s := p + sep + t;
    if |p| == 0 {
      assert s[..|sep|] == sep;
    } else {
      assert s[..|sep|][0] == p[0];
      assert s[1..] == p[1..] + sep + t;
      FindAfterPiece(p[1..], sep, t);
    }
  }

  /** A separator after a piece that cannot start it ends exactly that piece. */
  lemma SplitOnAfterPiece(p: string, sep: string, t: string)
    requires |sep| > 0 && sep[0] !in p
    ensures SplitOn(p + sep + t, sep) == [p] + SplitOn(t, sep)
  {
    FindAfterPiece(p, sep, t);
    var s := p + sep + t;
    assert s[..|p|] == p && s[|p| + |sep|..] == t;
  }

  /** Joining pieces that cannot start the separator and splitting again
      gives back the same pieces. */
  lemma {:induction false} SplitOnJoin(pieces: seq<string>, sep: string)
    requires |pieces| >= 1 && |sep| > 0
    requires forall k :: 0 <= k < |pieces| ==> sep[0] !in pieces[k]
    ensures SplitOn(Join(pieces, sep), sep) == pieces
    decreases |pieces|
  {
    if |pieces| == 1 {
      SplitOnWithout(pieces[0], sep);
    } else {
      SplitOnAfterPiece(pieces[0], sep, Join(pieces[1..], sep));
      SplitOnJoin(pieces[1..], sep);
      assert [pieces[0]] + pieces[1..] == pieces;
    }
  }

  /** What `String.split` does after matching: trailing empty strings are removed. */
  function DropTrailingEmpty(pieces: seq<string>): (kept: seq<string>)
    ensures |kept| <= |pieces| && kept == pieces[..|kept|]
    ensures kept == [] || kept[|kept| - 1] != ""
    ensures forall k :: |kept| <= k < |pieces| ==> pieces[k] == ""
  {
    if |pieces| == 0 then []
    else if pieces[|pieces| - 1] == "" then DropTrailingEmpty(pieces[..|pieces| - 1])
    else pieces
  }

  /** `s.split(sep)` for a separator free of regular-expression metacharacters:
      when nothing matches the whole input is the only element (even when it is
      empty); otherwise the pieces without the trailing empty ones. */
  function JavaSplit(s: string, sep: string): (r: seq<string>)
    requires |sep| > 0
    ensures Find(s, sep).None? ==> r == [s]
    ensures |r| != 1 ==> r == [] || r[|r| - 1] != ""
    ensures |sep| == 1 ==> forall k :: 0 <= k < |r| ==> sep[0] !in r[k]
  {
    SplitOnPiecesFree(s, sep);
    var pieces := SplitOn(s, sep);
    if |pieces| == 1 then pieces else DropTrailingEmpty(pieces)
  }

  /** Lines whose last one is not empty (or that are a single line) survive a
      join with the separator followed by `String.split`. */
  lemma JavaSplitJoin(lines: seq<string>, sep: string)
    requires |lines| >= 1 && |sep| > 0
    requires forall k :: 0 <= k < |lines| ==> sep[0] !in lines[k]
    requires |lines| == 1 || lines[|lines| - 1] != ""
    ensures JavaSplit(Join(lines, sep), sep) == lines
  {
    SplitOnJoin(lines, sep);
  }

  /** One carriage return removed from the end of a line, if it has one. */
  function DropCarriageReturn(line: string): (r: string)
    ensures |line| - 1 <= |r| <= |line| && r == line[..|r|]
  {
    if |line| > 0 && line[|line| - 1] == '\r' then line[..|line| - 1] else line
  }

  /** Every piece but the last loses one trailing carriage return: the pieces
      that a line feed ended. */
  function DropCarriageReturns(pieces: seq<string>): (r: seq<string>)
    requires |pieces| >= 1
    ensures |r| == |pieces|
    ensures forall k :: 0 <= k < |r| ==> |r[k]| <= |pieces[k]| && r[k] == pieces[k][..|r[k]|]
  {
    if |pieces| == 1 then pieces
    else [DropCarriageReturn(pieces[0])] + DropCarriageReturns(pieces[1..])
  }

  /** `s.split("\\r?\\n")`: a match of the pattern `\r?\n` is a line feed
      together with the carriage return just before it, if any. */
  function SplitLinesCrLf(s: string): (lines: seq<string>)
    ensures Find(s, "\n").None? ==> lines == [s]
    ensures forall k :: 0 <= k < |lines| ==> '\n' !in lines[k]
  {
    SplitOnPiecesFree(s, "\n");
    var pieces := SplitOn(s, "\n");
    if |pieces| == 1 then pieces else DropTrailingEmpty(DropCarriageReturns(pieces))
  }

  /** Every line but the last followed by a carriage return. */
  function AddCarriageReturns(lines: seq<string>): (r: seq<string>)
    requires |lines| >= 1
    ensures |r| == |lines|
  {
    if |lines| == 1 then lines
    else [lines[0] + "\r"] + AddCarriageReturns(lines[1..])
  }

  /** Lines ended by "\r\n" are the lines with carriage returns ended by "\n". */
  lemma {:induction false} JoinCrLf(lines: seq<string>)
    requires |lines| >= 1
    ensures Join(lines, "\r\n") == Join(AddCarriageReturns(lines), "\n")
    decreases |lines|
  {
    if |lines| > 1 {
      JoinCrLf(lines[1..]);
      var withCr := AddCarriageReturns(lines);
      assert withCr[1..] == AddCarriageReturns(lines[1..]);
      assert lines[0] + "\r\n" + Join(lines[1..], "\r\n")
          == (lines[0] + "\r") + "\n" + Join(lines[1..], "\r\n");
    }
  }

  /** Added carriage returns keep lines free of line feeds and are removed again. */
  lemma {:induction false} CarriageReturnsRoundTrip(lines: seq<string>)
    requires |lines| >= 1
    requires forall k :: 0 <= k < |lines| ==> '\n' !in lines[k]
    ensures forall k :: 0 <= k < |lines| ==> '\n' !in AddCarriageReturns(lines)[k]
    ensures DropCarriageReturns(AddCarriageReturns(lines)) == lines
    decreases |lines|
  {
    if |lines| > 1 {
      CarriageReturnsRoundTrip(lines[1..]);
      var withCr := AddCarriageReturns(lines);
      assert withCr[1..] == AddCarriageReturns(lines[1..]);
      assert DropCarriageReturn(lines[0] + "\r") == lines[0];
      assert '\n' !in lines[0] + "\r";
      assert [lines[0]] + lines[1..] == lines;
    }
  }

  /** Lines without carriage returns leave `DropCarriageReturns` unchanged. */
  lemma {:induction false} DropCarriageReturnsWithout(lines: seq<string>)
    requires |lines| >= 1
    requires forall k :: 0 <= k < |lines| ==> '\r' !in lines[k]
    ensures DropCarriageReturns(lines) == lines
    decreases |lines|
  {
    if |lines| > 1 {
      DropCarriageReturnsWithout(lines[1..]);
      assert [lines[0]] + lines[1..] == lines;
    }
  }

  /** Lines without line breaks, the last one not empty, come back from
      `split("\\r?\\n")` whether they were ended with "\n" or with "\r\n". */
  lemma SplitLinesCrLfJoin(lines: seq<string>)
    requires |lines| >= 1
    requires forall k :: 0 <= k < |lines| ==> '\n' !in lines[k] && '\r' !in lines[k]
    requires |lines| == 1 || lines[|lines| - 1] != ""
    ensures SplitLinesCrLf(Join(lines, "\n")) == lines
    ensures SplitLinesCrLf(Join(lines, "\r\n")) == lines
  {
    SplitOnJoin(lines, "\n");
    DropCarriageReturnsWithout(lines);
    JoinCrLf(lines);
    CarriageReturnsRoundTrip(lines);
    SplitOnJoin(AddCarriageReturns(lines), "\n");
  }

  // ---------------------------------------------------------------------
  // Integer.parseInt

  const MinInt: int := -0x8000_0000
  const MaxInt: int := 0x7fff_ffff

  predicate IsDigit(c: char)
  {
    '0' <= c <= '9'
  }

  predicate AllDigits(s: string)
  {
    forall k :: 0 <= k < |s| ==> IsDigit(s[k])
  }

  /** The value of a decimal numeral, most significant digit first. */
  function DigitsValue(s: string): nat
    requires AllDigits(s)
  {
    if |s| == 0 then 0
    else 10 * DigitsValue(s[..|s| - 1]) + (s[|s| - 1] as int - '0' as int)
  }

  /** `Integer.parseInt(s)` on ASCII text: an optional sign, at least one digit
      `0`-`9`, and a value within 32 bits; every other text gives `None`, for
      the NumberFormatException. Java also accepts decimal digits of other
      Unicode scripts; this model refuses them. */
  function ParseInt(s: string): (r: Option<int>)
    ensures r.Some? ==> MinInt <= r.value <= MaxInt
    ensures r.Some? ==> |s| > 0 && (IsDigit(s[0]) || s[0] == '-' || s[0] == '+')
  {
    var signed := |s| > 0 && (s[0] == '-' || s[0] == '+');
    var digits := if signed then s[1..] else s;
    if |digits| == 0 || !AllDigits(digits) then None
    else
      var v: int := if signed && s[0] == '-' then -(DigitsValue(digits) as int) else DigitsValue(digits);
      if MinInt <= v <= MaxInt then Some(v) else None
  }

  /** The decimal numeral of `n`, as `Integer.toString` writes a non-negative value. */
  function ShowNat(n: nat): (s: string)
    ensures |s| >= 1 && AllDigits(s) && DigitsValue(s) == n
  {
    var last := ('0' as int + n % 10) as char;
    if n < 10 then [last]
    else
      var front := ShowNat(n / 10);
      assert (front + [last])[..|front|] == front;
      front + [last]
  }

  /** `Integer.parseInt` reads back every non-negative `int` it is shown. */
  lemma ParseShowNat(n: nat)
    requires n <= MaxInt
    ensures ParseInt(ShowNat(n)) == Some(n)
  {
  }
}
