/** Characters of hexadecimal texts. */
module HexDigits {

  lemma HexDigit(c: char)
    ensures ('0' <= c <= '9' || 'a' <= c <= 'f') <==> c in "0123456789abcdef"
  {
    var digits := "0123456789abcdef";
    assert digits[0] == '0' && digits[1] == '1' && digits[2] == '2' && digits[3] == '3' && digits[4] == '4';
    assert digits[5] == '5' && digits[6] == '6' && digits[7] == '7' && digits[8] == '8' && digits[9] == '9';
    assert digits[10] == 'a' && digits[11] == 'b' && digits[12] == 'c' && digits[13] == 'd' && digits[14] == 'e';
    assert digits[15] == 'f';
  }

  lemma AnyCaseDigit(c: char)
    ensures ('0' <= c <= '9' || 'a' <= c <= 'f' || 'A' <= c <= 'F') <==> c in "0123456789abcdefABCDEF"
  {
    HexDigit(c);
    var digits := "0123456789abcdefABCDEF";
    assert digits == "0123456789abcdef" + "ABCDEF";
    var upper := "ABCDEF";
    assert upper[0] == 'A' && upper[1] == 'B' && upper[2] == 'C';
    assert upper[3] == 'D' && upper[4] == 'E' && upper[5] == 'F';
  }
}
