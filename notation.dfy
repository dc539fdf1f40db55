/** The textual form of a note sequence: `"_".join(map(str, notes))` when the
    sequence is generated, and `string_to_list`, which splits on '_' and
    applies `int` to every piece, when it is read back. */
module Notation {
  import opened Wrappers

  /** The ValueError raised by `int` on a piece that is not a decimal integer. */
  datatype ValueError = ValueError(piece: string)

  const Separator: char := '_'

  predicate IsDigit(c: char) { '0' <= c <= '9' }

  predicate AllDigits(s: string) { |s| >= 1 && forall i :: 0 <= i < |s| ==> IsDigit(s[i]) }

  function DigitChar(d: nat): (c: char)
    requires d < 10
    ensures IsDigit(c) && c as int - '0' as int == d
  {
    ('0' as int + d) as char
  }

  /** `str(n)` for a non-negative integer: its decimal digits. */
  function NatToString(n: nat): (s: string)
    ensures AllDigits(s)
    ensures n > 0 ==> s[0] != '0'
    decreases n
  {
    if n < 10 then [DigitChar(n)] else NatToString(n / 10) + [DigitChar(n % 10)]
  }

  /** `str(i)` for any integer: a minus sign in front of a negative one. */
  function IntToString(i: int): (s: string)
    ensures |s| >= 1 && Separator !in s
  {
    if i < 0 then "-" + NatToString(-i) else NatToString(i)
  }

  /** The number a string of decimal digits denotes. */
  function DigitsValue(s: string): nat
    requires forall i :: 0 <= i < |s| ==> IsDigit(s[i])
  {
    if s == [] then 0 else DigitsValue(s[..|s| - 1]) * 10 + DigitValue(s[|s| - 1])
  }

  function DigitValue(c: char): nat
    requires IsDigit(c)
  {
    c as int - '0' as int
  }

  /** `int(piece)`: an optional sign followed by one or more ASCII digits;
      anything else is a ValueError. */
  function ParseInt(s: string): (r: Option<int>)
    ensures r.Some? ==> |s| >= 1
    ensures r.Some? && r.value < 0 ==> s[0] == '-'
  {
    if |s| >= 1 && (s[0] == '-' || s[0] == '+') then
      if AllDigits(s[1..]) then
        var v: int := DigitsValue(s[1..]);
        Some(if s[0] == '-' then -v else v)
      else None
    else if AllDigits(s) then Some(DigitsValue(s))
    else None
  }

  /** `"_".join(map(str, xs))`. */
  function Join(xs: seq<int>): (s: string)
    ensures xs == [] <==> s == []
  {
    if |xs| == 0 then ""
    else if |xs| == 1 then IntToString(xs[0])
    else IntToString(xs[0]) + [Separator] + Join(xs[1..])
  }

  /** How many times `c` occurs in `s`. */
  function Occurrences(s: string, c: char): nat
  {
    if s == [] then 0 else (if s[0] == c then 1 else 0) + Occurrences(s[1..], c)
  }

  /** `s.split(sep)`: the pieces between separators, "" giving [""]. */
  function Split(s: string, sep: char): (parts: seq<string>)
    ensures |parts| == Occurrences(s, sep) + 1
  {
    if s == [] then [""]
    else
      var rest := Split(s[1..], sep);
      if s[0] == sep then [""] + rest else [[s[0]] + rest[0]] + rest[1..]
  }

  /** `[int(p) for p in parts]`: the first malformed piece raises. */
  function ParseAll(parts: seq<string>): (r: Result<seq<int>, ValueError>)
    ensures r.Success? ==> |r.value| == |parts|
    ensures r.Failure? ==> r.error.piece in parts && ParseInt(r.error.piece).None?
  {
    if parts == [] then Success([])
    else match ParseInt(parts[0])
      case None => Failure(ValueError(parts[0]))
      case Some(v) =>
        match ParseAll(parts[1..])
        case Failure(e) => Failure(e)
        case Success(vs) => Success([v] + vs)
  }

  /** `string_to_list`. */
  function StringToList(s: string): (r: Result<seq<int>, ValueError>)
    ensures r.Success? ==> |r.value| == |Split(s, Separator)|
  {
    ParseAll(Split(s, Separator))
  }

  /** The name of the audio file of a round, without its folder. */
  function AudioFileName(notes: seq<int>): (name: string)
    ensures |name| >= |AudioSuffix| && name[|name| - |AudioSuffix|..] == AudioSuffix
    ensures |notes| >= 1 ==> StringToList(name[..|name| - |AudioSuffix|]) == Success(notes)
  {
    if |notes| >= 1 then StringToListOfJoin(notes); Join(notes) + AudioSuffix
    else Join(notes) + AudioSuffix
  }

  /** The fixed tail of every audio file name. */
  const AudioSuffix: string := "_audiofile.wav"

  /** Reading back the digits that `str` writes gives the number again. */
  lemma {:induction false} DigitsValueOfNatToString(n: nat)
    ensures DigitsValue(NatToString(n)) == n
    decreases n
  {
    if n >= 10 {
      DigitsValueOfNatToString(n / 10);
      var s := NatToString(n);
      assert s[..|s| - 1] == NatToString(n / 10);
    }
  }

  /** `int` reads the digits `str` writes for a non-negative integer. */
  lemma ParseNatString(n: nat)
    ensures ParseInt(NatToString(n)) == Some(n)
  {
    var digits := NatToString(n);
    DigitsValueOfNatToString(n);
    assert IsDigit(digits[0]);
  }

  /** `int` reads a minus sign followed by the digits of a positive integer. */
  lemma ParseNegativeString(n: nat)
    requires n > 0
    ensures ParseInt("-" + NatToString(n)) == Some(-(n as int))
  {
    var digits := NatToString(n);
    DigitsValueOfNatToString(n);
    var s := "-" + digits;
    assert s[0] == '-' && s[1..] == digits;
  }

  /** `int(str(i)) == i` for every integer. */
  lemma ParseIntToString(i: int)
    ensures ParseInt(IntToString(i)) == Some(i)
  {
    if i < 0 {
      ParseNegativeString(-i);
    } else {
      ParseNatString(i);
    }
  }

  /** A piece without separators splits to itself. */
  lemma {:induction false} SplitWithoutSeparator(a: string, sep: char)
    requires sep !in a
    ensures Split(a, sep) == [a]
  {
    if a != [] {
      SplitWithoutSeparator(a[1..], sep);
      assert [a[0]] + a[1..] == a;
    }
  }

  /** Splitting at the first separator peels off the piece in front of it. */
  lemma {:induction false} SplitAtFirstSeparator(a: string, sep: char, b: string)
    requires sep !in a
    ensures Split(a + [sep] + b, sep) == [a] + Split(b, sep)
  {
    if a == [] {
      assert a + [sep] + b == [sep] + b;
      assert ([sep] + b)[1..] == b;
    } else {
      SplitAtFirstSeparator(a[1..], sep, b);
      assert (a + [sep] + b)[1..] == a[1..] + [sep] + b;
      assert [a[0]] + a[1..] == a;
    }
  }

  /** `map(str, xs)`. */
  function StrAll(xs: seq<int>): (parts: seq<string>)
    ensures |parts| == |xs|
  {
    if xs == [] then [] else [IntToString(xs[0])] + StrAll(xs[1..])
  }

  /** Splitting the joined text gives back the `str` of every note. */
  lemma {:induction false} SplitJoin(xs: seq<int>)
    requires |xs| >= 1
    ensures Split(Join(xs), Separator) == StrAll(xs)
  {
    if |xs| == 1 {
      SplitWithoutSeparator(IntToString(xs[0]), Separator);
      assert xs[1..] == [];
    } else {
      SplitJoin(xs[1..]);
      SplitAtFirstSeparator(IntToString(xs[0]), Separator, Join(xs[1..]));
    }
  }

  /** Parsing the `str` of every note gives the notes back. */
  lemma {:induction false} ParseAllStrings(xs: seq<int>)
    ensures ParseAll(StrAll(xs)) == Success(xs)
  {
    if xs != [] {
      var parts := StrAll(xs);
      ParseIntToString(xs[0]);
      ParseAllStrings(xs[1..]);
      assert parts[0] == IntToString(xs[0]) && parts[1..] == StrAll(xs[1..]);
      assert [xs[0]] + xs[1..] == xs;
    }
  }

  /** `string_to_list` undoes the join for every non-empty note list. */
  lemma StringToListOfJoin(xs: seq<int>)
    requires |xs| >= 1
    ensures StringToList(Join(xs)) == Success(xs)
  {
    SplitJoin(xs);
    ParseAllStrings(xs);
  }

  /** The empty list joins to "", whose single piece "" makes `int` fail. */
  lemma StringToListOfEmptyJoin()
    ensures StringToList(Join([])) == Failure(ValueError(""))
  {
  }

  /** Different non-empty note lists never share an audio file name. */
  lemma AudioFileNameInjective(xs: seq<int>, ys: seq<int>)
    requires |xs| >= 1 && |ys| >= 1
    requires AudioFileName(xs) == AudioFileName(ys)
    ensures xs == ys
  {
  }
}
