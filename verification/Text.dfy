// Text shared by the stores: decimal numbers and separated fields.

module Text {
  import opened Basics

  const INT64_MIN: int := -0x8000_0000_0000_0000
  const INT64_MAX: int := 0x7fff_ffff_ffff_ffff

  predicate IsDigit(c: char) { '0' <= c <= '9' }

  function Digits(text: string): nat
    requires forall c :: c in text ==> IsDigit(c)
  {
    if text == "" then 0
    else
      assert IsDigit(text[|text| - 1]);
      10 * Digits(text[..|text| - 1]) + (text[|text| - 1] as int - '0' as int)
  }

  // std::from_chars on the whole text: digits, at most a minus sign, and the 64-bit range.
  function Integer(text: string): Option<int> {
    var negative := |text| > 0 && text[0] == '-';
    var body := if negative then text[1..] else text;
    if body == "" || exists c :: c in body && !IsDigit(c) then None
    else
      var size: int := Digits(body);
      var value := if negative then -size else size;
      if INT64_MIN <= value <= INT64_MAX then Some(value) else None
  }

  function NatText(n: nat): string {
    (if n < 10 then "" else NatText(n / 10)) + [(n % 10) as char + '0']
  }

  function IntText(n: int): string {
    if n < 0 then "-" + NatText(-n) else NatText(n)
  }

  // Writing a number and reading its digits back.
  lemma {:induction false} DigitsOfNatText(n: nat)
    ensures NatText(n) != "" && (forall c :: c in NatText(n) ==> IsDigit(c)) && Digits(NatText(n)) == n
  {
    var text := NatText(n);
    if n >= 10 {
      DigitsOfNatText(n / 10);
      assert text[..|text| - 1] == NatText(n / 10);
    } else {
      assert text[..|text| - 1] == "";
    }
  }

  function IndexOf(text: string, c: char): (i: nat)
    ensures i <= |text| && c !in text[..i] && (i < |text| ==> text[i] == c)
  {
    if text == "" || text[0] == c then 0
    else
      var i := 1 + IndexOf(text[1..], c);
      assert text[..i] == [text[0]] + text[1..][..i - 1];
      i
  }

  // A text that a store can keep on one line of tab-separated fields.
  predicate SafeField(text: string, limit: nat) {
    0 < |text| <= limit && forall c :: c in text ==> c != '\t' && c != '\r' && c != '\n'
  }

  lemma SafeFieldMeans(text: string, limit: nat)
    ensures SafeField(text, limit) <==>
      text != "" && |text| <= limit && '\t' !in text && '\r' !in text && '\n' !in text
  {
  }

  // The fields of a separated text; the empty text is one empty field.
  function Split(text: string, separator: char): (fields: seq<string>)
    ensures |fields| >= 1
  {
    var i := IndexOf(text, separator);
    if i == |text| then [text] else [text[..i]] + Split(text[i + 1..], separator)
  }

  lemma {:induction false} IndexOfSeparator(prefix: string, c: char, rest: string)
    requires c !in prefix
    ensures IndexOf(prefix + [c] + rest, c) == |prefix| && IndexOf(prefix, c) == |prefix|
  {
    if prefix != "" {
      IndexOfSeparator(prefix[1..], c, rest);
      assert (prefix + [c] + rest)[1..] == prefix[1..] + [c] + rest;
    }
  }

  // A text is split at every separator, and nowhere else.
  lemma SplitMeans(first: string, c: char, rest: string)
    requires c !in first
    ensures Split(first, c) == [first]
    ensures Split(first + [c] + rest, c) == [first] + Split(rest, c)
  {
    IndexOfSeparator(first, c, rest);
    var text := first + [c] + rest;
    assert text[..|first|] == first && text[|first| + 1..] == rest;
  }

  // The hexadecimal digits.
  lemma HexDigits()
    ensures forall c: char :: c in "0123456789abcdefABCDEF" <==> '0' <= c <= '9' || 'a' <= c <= 'f' || 'A' <= c <= 'F'
  {
    var all := "0123456789abcdefABCDEF";
    assert all[0] == '0' && all[1] == '1' && all[2] == '2' && all[3] == '3' && all[4] == '4';
    assert all[5] == '5' && all[6] == '6' && all[7] == '7' && all[8] == '8' && all[9] == '9';
    assert all[10] == 'a' && all[11] == 'b' && all[12] == 'c' && all[13] == 'd' && all[14] == 'e' && all[15] == 'f';
    assert all[16] == 'A' && all[17] == 'B' && all[18] == 'C' && all[19] == 'D' && all[20] == 'E' && all[21] == 'F';
  }
}
