/** The two scanning loops both lexers share (Lexer.ts and Basic.ts write the same
    `makeNumber` and `makeIdentifier` loops): the numeral loop, which takes digits and at
    most one '.', and the word loop, which takes letters, digits and '_'. */
module Scans {
  import opened Common

  // ---------------------------------------------------------------- numbers

  /** The `makeNumber` loop from offset `j`, with `numStr` and `dots` accumulated so far:
      the final numeral and the offset at which the loop stops. */
  function ScanNumber(text: string, j: nat, numStr: string, dots: nat): (r: (string, nat))
    requires j <= |text|
    ensures j <= r.1 <= |text|
    decreases |text| - j
  {
    if j < |text| && (IsDigit(text[j]) || text[j] == '.') then
      if text[j] == '.' then
        if dots == 1 then (numStr, j) else ScanNumber(text, j + 1, numStr + ".", dots + 1)
      else ScanNumber(text, j + 1, numStr + [text[j]], dots)
    else (numStr, j)
  }

  /** A slice of digits and dots with at most one dot is a numeral. */
  lemma NumeralSlice(text: string, i: nat, j: nat)
    requires i <= j <= |text|
    requires forall k :: i <= k < j ==> IsDigit(text[k]) || text[k] == '.'
    requires CountChar(text[i..j], '.') <= 1
    ensures IsNumeral(text[i..j])
  {
    assert forall k :: 0 <= k < j - i ==> text[i..j][k] == text[i + k];
  }

  /** One turn of the `makeNumber` loop that takes the character at `j`. */
  lemma NumberTurn(text: string, i: nat, j: nat)
    requires i <= j < |text| && (IsDigit(text[j]) || text[j] == '.')
    requires !(text[j] == '.' && CountChar(text[i..j], '.') == 1)
    ensures CountChar(text[i..j + 1], '.') == CountChar(text[i..j], '.') + (if text[j] == '.' then 1 else 0)
    ensures ScanNumber(text, j, text[i..j], CountChar(text[i..j], '.')) ==
            ScanNumber(text, j + 1, text[i..j + 1], CountChar(text[i..j + 1], '.'))
  {
    assert text[i..j + 1] == text[i..j] + [text[j]];
    CountCharSplit(text[i..j], [text[j]], '.');
    assert CountChar([text[j]], '.') == (if text[j] == '.' then 1 else 0) by {
      assert [text[j]][..0] == [];
    }
    if text[j] == '.' {
      assert text[i..j] + "." == text[i..j + 1];
    }
  }

  lemma {:induction false} ScanNumberFrom(text: string, i: nat, j: nat)
    requires i <= j <= |text|
    requires forall k :: i <= k < j ==> IsDigit(text[k]) || text[k] == '.'
    requires CountChar(text[i..j], '.') <= 1
    ensures var (numStr, stop) := ScanNumber(text, j, text[i..j], CountChar(text[i..j], '.'));
      j <= stop <= |text| && numStr == text[i..stop] && IsNumeral(numStr) &&
      (stop == |text| || !(IsDigit(text[stop]) || text[stop] == '.') ||
       (text[stop] == '.' && CountChar(numStr, '.') == 1))
    decreases |text| - j
  {
    if j < |text| && (IsDigit(text[j]) || text[j] == '.') && !(text[j] == '.' && CountChar(text[i..j], '.') == 1) {
      NumberTurn(text, i, j);
      ScanNumberFrom(text, i, j + 1);
    } else {
      NumeralSlice(text, i, j);
    }
  }

  /** `makeNumber` consumes digits and at most one '.': the numeral is exactly the text it
      scanned, and the scan stops at the end of the text, at a character that is neither
      a digit nor '.', or at a second '.', which is not part of the number. */
  lemma NumberScanned(text: string, i: nat)
    requires i < |text| && IsDigit(text[i])
    ensures var (numStr, stop) := ScanNumber(text, i, "", 0);
      i < stop <= |text| && numStr == text[i..stop] && IsNumeral(numStr) &&
      (stop == |text| || !(IsDigit(text[stop]) || text[stop] == '.') ||
       (text[stop] == '.' && CountChar(numStr, '.') == 1))
  {
    assert text[i..i] == "";
    ScanNumberFrom(text, i, i);
  }

  // ---------------------------------------------------------------- words

  /** The `makeIdentifier` loop: the word and the offset of the first non-word character. */
  function ScanWord(text: string, j: nat, id: string): (r: (string, nat))
    requires j <= |text|
    ensures j <= r.1 <= |text|
    decreases |text| - j
  {
    if j < |text| && IsIdentChar(text[j]) then ScanWord(text, j + 1, id + [text[j]]) else (id, j)
  }

  lemma {:induction false} ScanWordFrom(text: string, i: nat, j: nat)
    requires i <= j <= |text|
    requires forall k :: i <= k < j ==> IsIdentChar(text[k])
    ensures var (id, stop) := ScanWord(text, j, text[i..j]);
      j <= stop <= |text| && id == text[i..stop] &&
      (forall k :: i <= k < stop ==> IsIdentChar(text[k])) &&
      (stop == |text| || !IsIdentChar(text[stop]))
    decreases |text| - j
  {
    if j < |text| && IsIdentChar(text[j]) {
      assert text[i..j] + [text[j]] == text[i..j + 1];
      ScanWordFrom(text, i, j + 1);
    }
  }

  /** `makeIdentifier` reads the longest run of word characters. */
  lemma WordScanned(text: string, i: nat)
    requires i < |text| && IsIdentChar(text[i])
    ensures var (id, stop) := ScanWord(text, i, "");
      i < stop <= |text| && id == text[i..stop] &&
      (forall k :: i <= k < stop ==> IsIdentChar(text[k])) &&
      (stop == |text| || !IsIdentChar(text[stop]))
  {
    assert text[i..i] == "";
    ScanWordFrom(text, i, i);
  }
}
