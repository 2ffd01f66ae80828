/**
 * The two string utilities of the file connectors: `splitString`, which
 * cuts a line into fields with repeated `std::getline(stream, word, delim)`,
 * and `fractionalToDouble`, which reads a US-Treasury price quoted in 32nds
 * and 256ths (`99-16+` is 99 + 16/32 + 4/256).
 */
module FileConnector {
  import opened Soa
  import opened Numerals

  /**
   * The fields `getline` produces. Each call takes the characters up to the
   * next delimiter (and swallows the delimiter) or up to the end; it fails
   * only when the stream is already at its end. So an empty line has no
   * fields, empty fields between delimiters are kept, and a trailing
   * delimiter does not open a last, empty field.
   */
  function Split(s: string, delim: char): seq<string>
    decreases |s|
  {
    if s == [] then []
    else
      var i := IndexOf(s, delim);
      if i == |s| then [s] else [s[..i]] + Split(s[i + 1..], delim)
  }

  /** The fields put back together with the delimiter between them. */
  function Join(fields: seq<string>, delim: char): string
  {
    if fields == [] then []
    else if |fields| == 1 then fields[0]
    else fields[0] + [delim] + Join(fields[1..], delim)
  }

  /** How often `c` occurs in `s`. */
  function Count(s: string, c: char): nat
  {
    multiset(s)[c]
  }

  /** The first field of a non-empty string ends at its first delimiter. */
  lemma SplitAt(s: string, delim: char, i: nat)
    requires s != [] && i <= |s|
    requires forall k :: 0 <= k < i ==> s[k] != delim
    requires i < |s| ==> s[i] == delim
    ensures i == |s| ==> Split(s, delim) == [s]
    ensures i < |s| ==> Split(s, delim) == [s[..i]] + Split(s[i + 1..], delim)
  {
    var r := IndexOf(s, delim);
    assert r <= i by {
      if i < |s| {
        assert s[i] == delim;
      }
    }
    assert r == i;
  }

  /** One getline call: the word from `pos` up to the delimiter at `j` (or the end). */
  lemma SplitStep(input: string, delim: char, pos: nat, j: nat)
    requires pos < |input| && pos <= j <= |input|
    requires forall k :: pos <= k < j ==> input[k] != delim
    requires j < |input| ==> input[j] == delim
    ensures j < |input| ==> Split(input[pos..], delim) == [input[pos..j]] + Split(input[j + 1..], delim)
    ensures j == |input| ==> Split(input[pos..], delim) == [input[pos..j]]
  {
    var s := input[pos..];
    SplitAt(s, delim, j - pos);
    assert s[..j - pos] == input[pos..j];
    if j < |input| {
      assert s[j - pos + 1..] == input[j + 1..];
    } else {
      assert s[..j - pos] == s;
    }
  }

  /**
   * `splitString`: the getline loop, pushing each word onto the result.
   */
  method SplitString(input: string, delim: char) returns (result: seq<string>)
    ensures result == Split(input, delim)
  {
    result := [];
    var pos := 0;
    while pos < |input|
      invariant 0 <= pos <= |input|
      invariant result + Split(input[pos..], delim) == Split(input, delim)
      decreases |input| - pos
    {
      var j := WordEnd(input, delim, pos);
      var word := input[pos..j];
      var next := if j < |input| then j + 1 else |input|;
      assert Split(input[pos..], delim) == [word] + Split(input[next..], delim) by {
        SplitStep(input, delim, pos, j);
        if j == |input| {
          assert input[next..] == [];
        }
      }
      result := result + [word];
      pos := next;
    }
    assert input[pos..] == [];
  }

  /** Where one `getline` call stops: the first delimiter at or after `pos`, or the end. */
  method WordEnd(input: string, delim: char, pos: nat) returns (j: nat)
    requires pos <= |input|
    ensures pos <= j <= |input|
    ensures forall k :: pos <= k < j ==> input[k] != delim
    ensures j < |input| ==> input[j] == delim
  {
    j := pos;
    while j < |input| && input[j] != delim
      invariant pos <= j <= |input|
      invariant forall k :: pos <= k < j ==> input[k] != delim
    {
      j := j + 1;
    }
  }

  /** The occurrences of the delimiter in a field, the delimiter and the rest add up. */
  lemma CountSplice(first: string, rest: string, delim: char)
    ensures Count(first + [delim] + rest, delim) == Count(first, delim) + 1 + Count(rest, delim)
  {
    assert multiset(first + [delim] + rest) == multiset(first) + multiset([delim]) + multiset(rest);
  }

  /** No field contains the delimiter. */
  lemma {:induction false} SplitFieldsHaveNoDelimiter(s: string, delim: char)
    ensures forall k :: 0 <= k < |Split(s, delim)| ==> delim !in Split(s, delim)[k]
    decreases |s|
  {
    if s != [] {
      var i := IndexOf(s, delim);
      if i < |s| {
        SplitFieldsHaveNoDelimiter(s[i + 1..], delim);
        assert delim !in s[..i];
      }
    }
  }

  /**
   * Joining the fields gives the line back, except for a trailing
   * delimiter, which `getline` swallows without opening an empty field.
   */
  lemma {:induction false} SplitJoin(s: string, delim: char)
    ensures s == [] || s[|s| - 1] != delim ==> Join(Split(s, delim), delim) == s
    ensures s != [] && s[|s| - 1] == delim ==> Join(Split(s, delim), delim) + [delim] == s
    decreases |s|
  {
    if s != [] {
      var i := IndexOf(s, delim);
      if i == |s| {
        JoinSingleField(s, delim);
      } else if i + 1 == |s| {
        JoinTrailingDelimiter(s, delim);
      } else {
        SplitJoin(s[i + 1..], delim);
        JoinAfterFirstField(s, delim, i);
      }
    }
  }

  /** A line without the delimiter is its own single field. */
  lemma JoinSingleField(s: string, delim: char)
    requires s != [] && IndexOf(s, delim) == |s|
    ensures s[|s| - 1] != delim && Join(Split(s, delim), delim) == s
  {
    SplitAt(s, delim, |s|);
  }

  /** A line whose only delimiter is its last character is one field followed by that delimiter. */
  lemma JoinTrailingDelimiter(s: string, delim: char)
    requires s != [] && IndexOf(s, delim) == |s| - 1
    ensures s[|s| - 1] == delim && Join(Split(s, delim), delim) + [delim] == s
  {
    var i := |s| - 1;
    SplitAt(s, delim, i);
    assert Split(s[i + 1..], delim) == [];
    assert s == s[..i] + [delim];
  }

  /** The round trip for a line whose first field is followed by more text, given the round trip for that text. */
  lemma JoinAfterFirstField(s: string, delim: char, i: nat)
    requires i + 1 < |s| && IndexOf(s, delim) == i
    requires var rest := s[i + 1..];
             (rest[|rest| - 1] != delim ==> Join(Split(rest, delim), delim) == rest) &&
             (rest[|rest| - 1] == delim ==> Join(Split(rest, delim), delim) + [delim] == rest)
    ensures s[|s| - 1] != delim ==> Join(Split(s, delim), delim) == s
    ensures s[|s| - 1] == delim ==> Join(Split(s, delim), delim) + [delim] == s
  {
    JoinFirstField(s, delim, i);
    CutAt(s, delim, i);
    var first, joined := s[..i], Join(Split(s[i + 1..], delim), delim);
    if s[|s| - 1] == delim {
      assert first + [delim] + joined + [delim] == first + [delim] + (joined + [delim]);
    }
  }

  /** Joining a line's fields: its first field, the delimiter, then the fields of what follows. */
  lemma JoinFirstField(s: string, delim: char, i: nat)
    requires i + 1 < |s| && IndexOf(s, delim) == i
    ensures Join(Split(s, delim), delim) == s[..i] + [delim] + Join(Split(s[i + 1..], delim), delim)
  {
    var rest := s[i + 1..];
    assert Split(s, delim) == [s[..i]] + Split(rest, delim);
    SplitNonEmpty(rest, delim);
    JoinCons(s[..i], Split(rest, delim), delim);
  }

  /** A line cut around the character at `i`. */
  lemma CutAt(s: string, delim: char, i: nat)
    requires i + 1 < |s| && s[i] == delim
    ensures s == s[..i] + [delim] + s[i + 1..]
    ensures s[|s| - 1] == s[i + 1..][|s[i + 1..]| - 1]
  {
  }

  lemma JoinCons(w: string, ws: seq<string>, delim: char)
    requires ws != []
    ensures Join([w] + ws, delim) == w + [delim] + Join(ws, delim)
  {
    assert ([w] + ws)[1..] == ws;
  }

  lemma SplitNonEmpty(s: string, delim: char)
    requires s != []
    ensures |Split(s, delim)| >= 1
  {
  }

  /**
   * An empty line has no fields; a non-empty line that does not end with the
   * delimiter has one field more than it has delimiters.
   */
  lemma {:induction false} SplitCount(s: string, delim: char)
    ensures s == [] ==> |Split(s, delim)| == 0
    ensures s != [] && s[|s| - 1] != delim ==> |Split(s, delim)| == Count(s, delim) + 1
    decreases |s|
  {
    if s != [] && s[|s| - 1] != delim {
      var i := IndexOf(s, delim);
      if i == |s| {
        assert delim !in s;
      } else {
        var rest := s[i + 1..];
        assert rest != [] && rest[|rest| - 1] == s[|s| - 1];
        SplitCount(rest, delim);
        assert s == s[..i] + [delim] + rest;
        assert delim !in s[..i];
        CountSplice(s[..i], rest, delim);
      }
    }
  }

  /**
   * `fractionalToDouble`. A string that does not split into exactly two
   * parts on '-' reads as 0.0. Otherwise the part before the dash is whole
   * points, the first two characters after it are 32nds, and the third is
   * eighths of a 32nd, i.e. 256ths, where '+' stands for 4. The third
   * character is taken as `c - '0'` whatever it is; when the part after the
   * dash is exactly two characters long the third is the string's
   * terminating NUL, so it counts as -48/256. A part after the dash shorter
   * than two characters is a read past the end (`BadNumber` when empty, as
   * `std::stod("")` throws, `MissingField` otherwise).
   */
  function FractionalToDouble(price: string): (r: Result<real>)
    ensures |Split(price, '-')| != 2 ==> r == Ok(0.0)
  {
    var parts := Split(price, '-');
    if |parts| != 2 then Ok(0.0)
    else
      var tail := parts[1];
      var whole := Stod(parts[0]);
      var thirtySeconds := Stod(if |tail| < 2 then tail else tail[..2]);
      if whole.Err? || thirtySeconds.Err? then Err(BadNumber)
      else if |tail| < 2 then Err(MissingField)
      else
        var eighth := if |tail| == 2 then 0 else tail[2] as int;
        var ticks := if eighth == '+' as int then 4 else eighth - '0' as int;
        Ok(whole.value + thirtySeconds.value / 32.0 + ticks as real / 256.0)
  }

  /** The 256ths a quote's third character stands for. */
  function Ticks(c: char): int
  {
    if c == '+' then 4 else DigitValue(c)
  }

  /**
   * For a quote `A-BBc...` with digit strings A and BB, the value is
   * A + BB/32 + c/256, a whole number of 256ths.
   */
  lemma FractionalValue(whole: string, tail: string)
    requires IsDigits(whole) && |tail| >= 3 && IsDigits(tail[..2]) && '-' !in tail
    ensures FractionalToDouble(whole + "-" + tail)
         == Ok(DigitsValue(whole) as real + DigitsValue(tail[..2]) as real / 32.0 + Ticks(tail[2]) as real / 256.0)
    ensures FractionalToDouble(whole + "-" + tail)
         == Ok((256 * DigitsValue(whole) + 8 * DigitsValue(tail[..2]) + Ticks(tail[2])) as real / 256.0)
  {
    SplitQuote(whole, tail);
    FractionalOfParts(whole + "-" + tail, whole, tail);
  }

  /** The value of a quote that splits into digits and a tail of at least three characters. */
  lemma FractionalOfParts(price: string, whole: string, tail: string)
    requires Split(price, '-') == [whole, tail]
    requires IsDigits(whole) && |tail| >= 3 && IsDigits(tail[..2])
    ensures FractionalToDouble(price)
         == Ok(DigitsValue(whole) as real + DigitsValue(tail[..2]) as real / 32.0 + Ticks(tail[2]) as real / 256.0)
  {
  }

  /** A digit string, a dash and a dash-free tail split into exactly those two parts. */
  lemma SplitQuote(whole: string, tail: string)
    requires IsDigits(whole) && tail != [] && '-' !in tail
    ensures Split(whole + "-" + tail, '-') == [whole, tail]
  {
    var price := whole + "-" + tail;
    assert forall k :: 0 <= k < |whole| ==> price[k] == whole[k] && IsDigit(whole[k]);
    SplitAt(price, '-', |whole|);
    assert price[..|whole|] == whole;
    assert price[|whole| + 1..] == tail;
    SplitAt(tail, '-', |tail|);
  }

  /** A '+' in third place is the digit 4: `X-YY+` and `X-YY4` read the same. */
  lemma PlusIsFour(whole: string, bb: string, rest: string)
    requires IsDigits(whole) && IsDigits(bb) && |bb| == 2 && '-' !in rest
    ensures FractionalToDouble(whole + "-" + (bb + "+" + rest)) == FractionalToDouble(whole + "-" + (bb + "4" + rest))
  {
    var plus, four := bb + "+" + rest, bb + "4" + rest;
    assert plus[..2] == bb && four[..2] == bb && plus[2] == '+' && four[2] == '4';
    assert '-' !in plus && '-' !in four by {
      assert IsDigit(bb[0]) && IsDigit(bb[1]);
      assert forall k :: 0 <= k < |plus| ==> plus[k] == '+' || plus[k] in bb || plus[k] in rest;
      assert forall k :: 0 <= k < |four| ==> four[k] == '4' || four[k] in bb || four[k] in rest;
    }
    FractionalValue(whole, plus);
    FractionalValue(whole, four);
  }
}
