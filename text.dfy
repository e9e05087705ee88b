/** The text operations the report relies on: decimal rendering of integers and joining lines. */
module Text {

  /** The decimal digit character for `d`. */
  function Digit(d: nat): (c: char)
    requires d < 10
    ensures '0' <= c <= '9'
  {
    "0123456789"[d]
  }

  /** The digits of a natural number, most significant first, without leading zeros. */
  function NatDigits(n: nat): (s: string)
    ensures |s| >= 1
    ensures forall i :: 0 <= i < |s| ==> '0' <= s[i] <= '9'
    ensures |s| > 1 ==> s[0] != '0'
    decreases n
  {
    if n < 10 then [Digit(n)] else NatDigits(n / 10) + [Digit(n % 10)]
  }

  /** Reads a string of decimal digits back as the number it denotes. */
  function ParseDigits(s: string): nat
    requires forall i :: 0 <= i < |s| ==> '0' <= s[i] <= '9'
  {
    if s == [] then 0 else ParseDigits(s[..|s| - 1]) * 10 + (s[|s| - 1] - '0') as nat
  }

  /** Java's decimal rendering of an `int`: a minus sign for negatives, then the digits. */
  function DecimalString(n: int): (s: string)
    ensures '\n' !in s
  {
    if n < 0 then "-" + NatDigits(-n) else NatDigits(n)
  }

  /** Decimal rendering loses nothing: parsing the digits gives back the number. */
  lemma {:induction false} DigitsRoundTrip(n: nat)
    ensures ParseDigits(NatDigits(n)) == n
    decreases n
  {
    DigitValue(n % 10);
    if n >= 10 {
      var s := NatDigits(n);
      assert s == NatDigits(n / 10) + [Digit(n % 10)];
      assert s[..|s| - 1] == NatDigits(n / 10);
      DigitsRoundTrip(n / 10);
    } else {
      assert NatDigits(n) == [Digit(n)];
      assert NatDigits(n)[..0] == [];
    }
  }

  /** The digit character of `d` stands for `d`. */
  lemma DigitValue(d: nat)
    requires d < 10
    ensures (Digit(d) - '0') as nat == d
  {
  }

  /** The lines joined with a newline between each two, as Java's String.join("\n", ...) does. */
  function JoinLines(lines: seq<string>): string
  {
    if |lines| == 0 then ""
    else if |lines| == 1 then lines[0]
    else lines[0] + "\n" + JoinLines(lines[1..])
  }

  /** The pieces of `s` between its newline characters; always at least one piece. */
  function SplitLines(s: string): (pieces: seq<string>)
    ensures |pieces| >= 1
  {
    if s == [] then [""]
    else
      var tail := SplitLines(s[1..]);
      if s[0] == '\n' then [""] + tail else [[s[0]] + tail[0]] + tail[1..]
  }

  /** A piece without a newline in front of `rest` extends the first piece of `rest`. */
  lemma {:induction false} SplitLinesPrefix(piece: string, rest: string)
    requires '\n' !in piece
    ensures SplitLines(piece + rest) == [piece + SplitLines(rest)[0]] + SplitLines(rest)[1..]
  {
    if piece != [] {
      var whole := piece + rest;
      assert whole[0] == piece[0] && whole[1..] == piece[1..] + rest;
      SplitLinesPrefix(piece[1..], rest);
      assert [piece[0]] + (piece[1..] + SplitLines(rest)[0]) == piece + SplitLines(rest)[0];
    } else {
      var pieces := SplitLines(rest);
      assert piece + rest == rest && piece + pieces[0] == pieces[0];
      assert pieces == [pieces[0]] + pieces[1..];
    }
  }

  /**
   * Joining a non-empty list of lines that contain no newline can be undone by splitting:
   * the issues cell of a report row determines the issue list it was built from.
   */
  lemma {:induction false} JoinThenSplit(lines: seq<string>)
    requires |lines| >= 1
    requires forall i :: 0 <= i < |lines| ==> '\n' !in lines[i]
    ensures SplitLines(JoinLines(lines)) == lines
  {
    if |lines| == 1 {
      SplitLinesPrefix(lines[0], "");
      assert lines[0] + "" == lines[0];
      assert SplitLines("") == [""];
    } else {
      var rest := JoinLines(lines[1..]);
      JoinThenSplit(lines[1..]);
      assert lines[0] + "\n" + rest == lines[0] + ("\n" + rest);
      var tail := "\n" + rest;
      assert tail[0] == '\n' && tail[1..] == rest;
      assert SplitLines(tail) == [""] + SplitLines(rest);
      SplitLinesPrefix(lines[0], tail);
      assert lines[0] + "" == lines[0];
      assert lines == [lines[0]] + lines[1..];
    }
  }
}
