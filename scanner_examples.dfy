/** The token streams that the json-lexer tests expect, stated on the scanner
    specification. Each input is given rune by rune; Cursor(0, 1, 1, 0) is the
    state NewLexer builds for a non-empty input (Initial). */
module ScannerExamples {
  import opened Options
  import opened Token
  import opened Scanner
  import opened ScannerFacts

  /** The input of TestNewLexer_EmptyJSON (internal/json-lexer/lexer_test.go:29-57), rune by rune. */
  predicate EmptyJsonInput(runes: seq<char>) {
    |runes| == 6 && runes[0] == '\t' && runes[1] == '{' && runes[2] == ' ' && runes[3] == ' ' &&
    runes[4] == '}' && runes[5] == ' '
  }

  lemma EmptyJsonStep0(runes: seq<char>)
    requires EmptyJsonInput(runes)
    ensures Lex(runes, Cursor(0, 1, 1, 0)) == Step(Token(LBrace, "{", 1, 1), Cursor(2, 3, 1, 2))
  {
    assert SkipBlanks(runes, Cursor(0, 1, 1, 0)) == SkipBlanks(runes, Cursor(1, 2, 1, 1)) == Cursor(1, 2, 1, 1);
    DelimiterToken(runes, Cursor(1, 2, 1, 1), LBrace);
  }

  lemma EmptyJsonStep1(runes: seq<char>)
    requires EmptyJsonInput(runes)
    ensures Lex(runes, Cursor(2, 3, 1, 2)) == Step(Token(RBrace, "}", 1, 4), Cursor(5, 6, 1, 5))
  {
    assert SkipBlanks(runes, Cursor(2, 3, 1, 2)) == SkipBlanks(runes, Cursor(3, 4, 1, 3)) == SkipBlanks(runes, Cursor(4, 5, 1, 4)) == Cursor(4, 5, 1, 4);
    DelimiterToken(runes, Cursor(4, 5, 1, 4), RBrace);
  }

  lemma EmptyJsonStep2(runes: seq<char>)
    requires EmptyJsonInput(runes)
    ensures Lex(runes, Cursor(5, 6, 1, 5)) == Step(Token(Eof, "EOF", 1, 6), Cursor(7, 8, 1, 7))
  {
    assert SkipBlanks(runes, Cursor(5, 6, 1, 5)) == SkipBlanks(runes, Cursor(6, 7, 1, 6)) == Cursor(6, 7, 1, 6);
  }

  /** TestNewLexer_EmptyJSON (internal/json-lexer/lexer_test.go:29-57): the tokens of 3 successive NextToken calls,
      each starting from the state the previous one ends in. */
  lemma EmptyJsonTokens(runes: seq<char>)
    requires EmptyJsonInput(runes)
    ensures Lex(runes, Cursor(0, 1, 1, 0)) == Step(Token(LBrace, "{", 1, 1), Cursor(2, 3, 1, 2))
    ensures Lex(runes, Cursor(2, 3, 1, 2)) == Step(Token(RBrace, "}", 1, 4), Cursor(5, 6, 1, 5))
    ensures Lex(runes, Cursor(5, 6, 1, 5)) == Step(Token(Eof, "EOF", 1, 6), Cursor(7, 8, 1, 7))
  {
    EmptyJsonStep0(runes);
    EmptyJsonStep1(runes);
    EmptyJsonStep2(runes);
  }

  /** The input of TestNewLexer_Arrays (internal/json-lexer/lexer_test.go:121-150), rune by rune. */
  predicate ArraysInput(runes: seq<char>) {
    |runes| == 16 && runes[0] == '{' && runes[1] == '\n' && runes[2] == '"' &&
    runes[3] == 'a' && runes[4] == '1' && runes[5] == '"' && runes[6] == ':' &&
    runes[7] == '[' && runes[8] == '0' && runes[9] == ',' && runes[10] == '1' &&
    runes[11] == ',' && runes[12] == '2' && runes[13] == ']' && runes[14] == '\n' &&
    runes[15] == '}'
  }

  lemma ArraysStep0(runes: seq<char>)
    requires ArraysInput(runes)
    ensures Lex(runes, Cursor(0, 1, 1, 0)) == Step(Token(LBrace, "{", 1, 0), Cursor(1, 2, 1, 1))
  {
    DelimiterToken(runes, Cursor(0, 1, 1, 0), LBrace);
  }

  lemma ArraysStep1(runes: seq<char>)
    requires ArraysInput(runes)
    ensures Lex(runes, Cursor(1, 2, 1, 1)) == Step(Token(StringLit, "a1", 2, 0), Cursor(6, 7, 2, 4))
  {
    assert SkipBlanks(runes, Cursor(1, 2, 1, 1)) == SkipBlanks(runes, Cursor(2, 3, 2, 0)) == Cursor(2, 3, 2, 0);
    assert StringScan(runes, 5) == Some(5);
    assert StringScan(runes, 4) == Some(5);
    assert StringScan(runes, 3) == Some(5);
    assert runes[3..5] == "a1";
  }

  lemma ArraysStep2(runes: seq<char>)
    requires ArraysInput(runes)
    ensures Lex(runes, Cursor(6, 7, 2, 4)) == Step(Token(Colon, ":", 2, 4), Cursor(7, 8, 2, 5))
  {
    DelimiterToken(runes, Cursor(6, 7, 2, 4), Colon);
  }

  lemma ArraysStep3(runes: seq<char>)
    requires ArraysInput(runes)
    ensures Lex(runes, Cursor(7, 8, 2, 5)) == Step(Token(LBracket, "[", 2, 5), Cursor(8, 9, 2, 6))
  {
    DelimiterToken(runes, Cursor(7, 8, 2, 5), LBracket);
  }

  lemma ArraysStep4(runes: seq<char>)
    requires ArraysInput(runes)
    ensures Lex(runes, Cursor(8, 9, 2, 6)) == Step(Token(NumberLit, "0", 2, 6), Cursor(9, 10, 2, 7))
  {
    assert DigitsEnd(runes, 9) == 9;
    assert DigitsEnd(runes, 8) == 9;
    assert DigitsEnd(runes, 9) == 9;
    assert MantissaEnd(runes, 8) == 9;
    assert ExponentEnd(runes, 9) == 9;
    assert runes[8..9] == "0";
  }

  lemma ArraysStep5(runes: seq<char>)
    requires ArraysInput(runes)
    ensures Lex(runes, Cursor(9, 10, 2, 7)) == Step(Token(Comma, ",", 2, 7), Cursor(10, 11, 2, 8))
  {
    DelimiterToken(runes, Cursor(9, 10, 2, 7), Comma);
  }

  lemma ArraysStep6(runes: seq<char>)
    requires ArraysInput(runes)
    ensures Lex(runes, Cursor(10, 11, 2, 8)) == Step(Token(NumberLit, "1", 2, 8), Cursor(11, 12, 2, 9))
  {
    assert DigitsEnd(runes, 11) == 11;
    assert DigitsEnd(runes, 10) == 11;
    assert DigitsEnd(runes, 11) == 11;
    assert MantissaEnd(runes, 10) == 11;
    assert ExponentEnd(runes, 11) == 11;
    assert runes[10..11] == "1";
  }

  lemma ArraysStep7(runes: seq<char>)
    requires ArraysInput(runes)
    ensures Lex(runes, Cursor(11, 12, 2, 9)) == Step(Token(Comma, ",", 2, 9), Cursor(12, 13, 2, 10))
  {
    DelimiterToken(runes, Cursor(11, 12, 2, 9), Comma);
  }

  lemma ArraysStep8(runes: seq<char>)
    requires ArraysInput(runes)
    ensures Lex(runes, Cursor(12, 13, 2, 10)) == Step(Token(NumberLit, "2", 2, 10), Cursor(13, 14, 2, 11))
  {
    assert DigitsEnd(runes, 13) == 13;
    assert DigitsEnd(runes, 12) == 13;
    assert DigitsEnd(runes, 13) == 13;
    assert MantissaEnd(runes, 12) == 13;
    assert ExponentEnd(runes, 13) == 13;
    assert runes[12..13] == "2";
  }

  lemma ArraysStep9(runes: seq<char>)
    requires ArraysInput(runes)
    ensures Lex(runes, Cursor(13, 14, 2, 11)) == Step(Token(RBracket, "]", 2, 11), Cursor(14, 15, 2, 12))
  {
    DelimiterToken(runes, Cursor(13, 14, 2, 11), RBracket);
  }

  lemma ArraysStep10(runes: seq<char>)
    requires ArraysInput(runes)
    ensures Lex(runes, Cursor(14, 15, 2, 12)) == Step(Token(RBrace, "}", 3, 0), Cursor(16, 17, 3, 1))
  {
    assert SkipBlanks(runes, Cursor(14, 15, 2, 12)) == SkipBlanks(runes, Cursor(15, 16, 3, 0)) == Cursor(15, 16, 3, 0);
    DelimiterToken(runes, Cursor(15, 16, 3, 0), RBrace);
  }

  lemma ArraysStep11(runes: seq<char>)
    requires ArraysInput(runes)
    ensures Lex(runes, Cursor(16, 17, 3, 1)) == Step(Token(Eof, "EOF", 3, 1), Cursor(17, 18, 3, 2))
  {
  }

  /** TestNewLexer_Arrays (internal/json-lexer/lexer_test.go:121-150): the tokens of 12 successive NextToken calls,
      each starting from the state the previous one ends in. */
  lemma ArraysTokens(runes: seq<char>)
    requires ArraysInput(runes)
    ensures Lex(runes, Cursor(0, 1, 1, 0)) == Step(Token(LBrace, "{", 1, 0), Cursor(1, 2, 1, 1))
    ensures Lex(runes, Cursor(1, 2, 1, 1)) == Step(Token(StringLit, "a1", 2, 0), Cursor(6, 7, 2, 4))
    ensures Lex(runes, Cursor(6, 7, 2, 4)) == Step(Token(Colon, ":", 2, 4), Cursor(7, 8, 2, 5))
    ensures Lex(runes, Cursor(7, 8, 2, 5)) == Step(Token(LBracket, "[", 2, 5), Cursor(8, 9, 2, 6))
    ensures Lex(runes, Cursor(8, 9, 2, 6)) == Step(Token(NumberLit, "0", 2, 6), Cursor(9, 10, 2, 7))
    ensures Lex(runes, Cursor(9, 10, 2, 7)) == Step(Token(Comma, ",", 2, 7), Cursor(10, 11, 2, 8))
    ensures Lex(runes, Cursor(10, 11, 2, 8)) == Step(Token(NumberLit, "1", 2, 8), Cursor(11, 12, 2, 9))
    ensures Lex(runes, Cursor(11, 12, 2, 9)) == Step(Token(Comma, ",", 2, 9), Cursor(12, 13, 2, 10))
    ensures Lex(runes, Cursor(12, 13, 2, 10)) == Step(Token(NumberLit, "2", 2, 10), Cursor(13, 14, 2, 11))
    ensures Lex(runes, Cursor(13, 14, 2, 11)) == Step(Token(RBracket, "]", 2, 11), Cursor(14, 15, 2, 12))
    ensures Lex(runes, Cursor(14, 15, 2, 12)) == Step(Token(RBrace, "}", 3, 0), Cursor(16, 17, 3, 1))
    ensures Lex(runes, Cursor(16, 17, 3, 1)) == Step(Token(Eof, "EOF", 3, 1), Cursor(17, 18, 3, 2))
  {
    ArraysStep0(runes);
    ArraysStep1(runes);
    ArraysStep2(runes);
    ArraysStep3(runes);
    ArraysStep4(runes);
    ArraysStep5(runes);
    ArraysStep6(runes);
    ArraysStep7(runes);
    ArraysStep8(runes);
    ArraysStep9(runes);
    ArraysStep10(runes);
    ArraysStep11(runes);
  }

  /** The input of TestNewLexer_AdvancedJSON (internal/json-lexer/lexer_test.go:152-193), rune by rune. */
  predicate AdvancedInput(runes: seq<char>) {
    |runes| == 45 && runes[0] == '{' && runes[1] == '\n' && runes[2] == '"' &&
    runes[3] == 't' && runes[4] == '"' && runes[5] == ':' && runes[6] == 't' &&
    runes[7] == 'r' && runes[8] == 'u' && runes[9] == 'e' && runes[10] == ',' &&
    runes[11] == '\n' && runes[12] == '"' && runes[13] == 'f' && runes[14] == '"' &&
    runes[15] == ':' && runes[16] == 'f' && runes[17] == 'a' && runes[18] == 'l' &&
    runes[19] == 's' && runes[20] == 'e' && runes[21] == ',' && runes[22] == '\n' &&
    runes[23] == '"' && runes[24] == 's' && runes[25] == '"' && runes[26] == ':' &&
    runes[27] == '"' && runes[28] == 's' && runes[29] == '"' && runes[30] == ',' &&
    runes[31] == '\n' && runes[32] == '"' && runes[33] == 'n' && runes[34] == '"' &&
    runes[35] == ':' && runes[36] == '-' && runes[37] == '1' && runes[38] == '2' &&
    runes[39] == '.' && runes[40] == '3' && runes[41] == '4' && runes[42] == '5' &&
    runes[43] == '\n' && runes[44] == '}'
  }

  lemma AdvancedStep0(runes: seq<char>)
    requires AdvancedInput(runes)
    ensures Lex(runes, Cursor(0, 1, 1, 0)) == Step(Token(LBrace, "{", 1, 0), Cursor(1, 2, 1, 1))
  {
    DelimiterToken(runes, Cursor(0, 1, 1, 0), LBrace);
  }

  lemma AdvancedStep1(runes: seq<char>)
    requires AdvancedInput(runes)
    ensures Lex(runes, Cursor(1, 2, 1, 1)) == Step(Token(StringLit, "t", 2, 0), Cursor(5, 6, 2, 3))
  {
    assert SkipBlanks(runes, Cursor(1, 2, 1, 1)) == SkipBlanks(runes, Cursor(2, 3, 2, 0)) == Cursor(2, 3, 2, 0);
    assert StringScan(runes, 4) == Some(4);
    assert StringScan(runes, 3) == Some(4);
    assert runes[3..4] == "t";
  }

  lemma AdvancedStep2(runes: seq<char>)
    requires AdvancedInput(runes)
    ensures Lex(runes, Cursor(5, 6, 2, 3)) == Step(Token(Colon, ":", 2, 3), Cursor(6, 7, 2, 4))
  {
    DelimiterToken(runes, Cursor(5, 6, 2, 3), Colon);
  }

  lemma AdvancedStep3(runes: seq<char>)
    requires AdvancedInput(runes)
    ensures Lex(runes, Cursor(6, 7, 2, 4)) == Step(Token(True, "true", 2, 4), Cursor(10, 11, 2, 8))
  {
    assert WordEnd(runes, 10) == 10;
    assert WordEnd(runes, 9) == 10;
    assert WordEnd(runes, 8) == 10;
    assert WordEnd(runes, 7) == 10;
    assert runes[6..10] == "true";
  }

  lemma AdvancedStep4(runes: seq<char>)
    requires AdvancedInput(runes)
    ensures Lex(runes, Cursor(10, 11, 2, 8)) == Step(Token(Comma, ",", 2, 8), Cursor(11, 12, 2, 9))
  {
    DelimiterToken(runes, Cursor(10, 11, 2, 8), Comma);
  }

  lemma AdvancedStep5(runes: seq<char>)
    requires AdvancedInput(runes)
    ensures Lex(runes, Cursor(11, 12, 2, 9)) == Step(Token(StringLit, "f", 3, 0), Cursor(15, 16, 3, 3))
  {
    assert SkipBlanks(runes, Cursor(11, 12, 2, 9)) == SkipBlanks(runes, Cursor(12, 13, 3, 0)) == Cursor(12, 13, 3, 0);
    assert StringScan(runes, 14) == Some(14);
    assert StringScan(runes, 13) == Some(14);
    assert runes[13..14] == "f";
  }

  lemma AdvancedStep6(runes: seq<char>)
    requires AdvancedInput(runes)
    ensures Lex(runes, Cursor(15, 16, 3, 3)) == Step(Token(Colon, ":", 3, 3), Cursor(16, 17, 3, 4))
  {
    DelimiterToken(runes, Cursor(15, 16, 3, 3), Colon);
  }

  lemma AdvancedStep7(runes: seq<char>)
    requires AdvancedInput(runes)
    ensures Lex(runes, Cursor(16, 17, 3, 4)) == Step(Token(False, "false", 3, 4), Cursor(21, 22, 3, 9))
  {
    assert WordEnd(runes, 21) == 21;
    assert WordEnd(runes, 20) == 21;
    assert WordEnd(runes, 19) == 21;
    assert WordEnd(runes, 18) == 21;
    assert WordEnd(runes, 17) == 21;
    assert runes[16..21] == "false";
  }

  lemma AdvancedStep8(runes: seq<char>)
    requires AdvancedInput(runes)
    ensures Lex(runes, Cursor(21, 22, 3, 9)) == Step(Token(Comma, ",", 3, 9), Cursor(22, 23, 3, 10))
  {
    DelimiterToken(runes, Cursor(21, 22, 3, 9), Comma);
  }

  lemma AdvancedStep9(runes: seq<char>)
    requires AdvancedInput(runes)
    ensures Lex(runes, Cursor(22, 23, 3, 10)) == Step(Token(StringLit, "s", 4, 0), Cursor(26, 27, 4, 3))
  {
    assert SkipBlanks(runes, Cursor(22, 23, 3, 10)) == SkipBlanks(runes, Cursor(23, 24, 4, 0)) == Cursor(23, 24, 4, 0);
    assert StringScan(runes, 25) == Some(25);
    assert StringScan(runes, 24) == Some(25);
    assert runes[24..25] == "s";
  }

  lemma AdvancedStep10(runes: seq<char>)
    requires AdvancedInput(runes)
    ensures Lex(runes, Cursor(26, 27, 4, 3)) == Step(Token(Colon, ":", 4, 3), Cursor(27, 28, 4, 4))
  {
    DelimiterToken(runes, Cursor(26, 27, 4, 3), Colon);
  }

  lemma AdvancedStep11(runes: seq<char>)
    requires AdvancedInput(runes)
    ensures Lex(runes, Cursor(27, 28, 4, 4)) == Step(Token(StringLit, "s", 4, 4), Cursor(30, 31, 4, 7))
  {
    assert StringScan(runes, 29) == Some(29);
    assert StringScan(runes, 28) == Some(29);
    assert runes[28..29] == "s";
  }

  lemma AdvancedStep12(runes: seq<char>)
    requires AdvancedInput(runes)
    ensures Lex(runes, Cursor(30, 31, 4, 7)) == Step(Token(Comma, ",", 4, 7), Cursor(31, 32, 4, 8))
  {
    DelimiterToken(runes, Cursor(30, 31, 4, 7), Comma);
  }

  lemma AdvancedStep13(runes: seq<char>)
    requires AdvancedInput(runes)
    ensures Lex(runes, Cursor(31, 32, 4, 8)) == Step(Token(StringLit, "n", 5, 0), Cursor(35, 36, 5, 3))
  {
    assert SkipBlanks(runes, Cursor(31, 32, 4, 8)) == SkipBlanks(runes, Cursor(32, 33, 5, 0)) == Cursor(32, 33, 5, 0);
    assert StringScan(runes, 34) == Some(34);
    assert StringScan(runes, 33) == Some(34);
    assert runes[33..34] == "n";
  }

  lemma AdvancedStep14(runes: seq<char>)
    requires AdvancedInput(runes)
    ensures Lex(runes, Cursor(35, 36, 5, 3)) == Step(Token(Colon, ":", 5, 3), Cursor(36, 37, 5, 4))
  {
    DelimiterToken(runes, Cursor(35, 36, 5, 3), Colon);
  }

  lemma AdvancedStep15(runes: seq<char>)
    requires AdvancedInput(runes)
    ensures Lex(runes, Cursor(36, 37, 5, 4)) == Step(Token(NumberLit, "-12.345", 5, 4), Cursor(43, 44, 5, 11))
  {
    assert DigitsEnd(runes, 39) == 39;
    assert DigitsEnd(runes, 38) == 39;
    assert DigitsEnd(runes, 37) == 39;
    assert DigitsEnd(runes, 43) == 43;
    assert DigitsEnd(runes, 42) == 43;
    assert DigitsEnd(runes, 41) == 43;
    assert DigitsEnd(runes, 40) == 43;
    assert MantissaEnd(runes, 36) == 43;
    assert ExponentEnd(runes, 43) == 43;
    assert runes[36..43] == "-12.345";
  }

  lemma AdvancedStep16(runes: seq<char>)
    requires AdvancedInput(runes)
    ensures Lex(runes, Cursor(43, 44, 5, 11)) == Step(Token(RBrace, "}", 6, 0), Cursor(45, 46, 6, 1))
  {
    assert SkipBlanks(runes, Cursor(43, 44, 5, 11)) == SkipBlanks(runes, Cursor(44, 45, 6, 0)) == Cursor(44, 45, 6, 0);
    DelimiterToken(runes, Cursor(44, 45, 6, 0), RBrace);
  }

  lemma AdvancedStep17(runes: seq<char>)
    requires AdvancedInput(runes)
    ensures Lex(runes, Cursor(45, 46, 6, 1)) == Step(Token(Eof, "EOF", 6, 1), Cursor(46, 47, 6, 2))
  {
  }

  /** TestNewLexer_AdvancedJSON (internal/json-lexer/lexer_test.go:152-193): NextToken calls 1 to 12 of 18,
      each starting from the state the previous one ends in. */
  lemma AdvancedTokens1(runes: seq<char>)
    requires AdvancedInput(runes)
    ensures Lex(runes, Cursor(0, 1, 1, 0)) == Step(Token(LBrace, "{", 1, 0), Cursor(1, 2, 1, 1))
    ensures Lex(runes, Cursor(1, 2, 1, 1)) == Step(Token(StringLit, "t", 2, 0), Cursor(5, 6, 2, 3))
    ensures Lex(runes, Cursor(5, 6, 2, 3)) == Step(Token(Colon, ":", 2, 3), Cursor(6, 7, 2, 4))
    ensures Lex(runes, Cursor(6, 7, 2, 4)) == Step(Token(True, "true", 2, 4), Cursor(10, 11, 2, 8))
    ensures Lex(runes, Cursor(10, 11, 2, 8)) == Step(Token(Comma, ",", 2, 8), Cursor(11, 12, 2, 9))
    ensures Lex(runes, Cursor(11, 12, 2, 9)) == Step(Token(StringLit, "f", 3, 0), Cursor(15, 16, 3, 3))
    ensures Lex(runes, Cursor(15, 16, 3, 3)) == Step(Token(Colon, ":", 3, 3), Cursor(16, 17, 3, 4))
    ensures Lex(runes, Cursor(16, 17, 3, 4)) == Step(Token(False, "false", 3, 4), Cursor(21, 22, 3, 9))
    ensures Lex(runes, Cursor(21, 22, 3, 9)) == Step(Token(Comma, ",", 3, 9), Cursor(22, 23, 3, 10))
    ensures Lex(runes, Cursor(22, 23, 3, 10)) == Step(Token(StringLit, "s", 4, 0), Cursor(26, 27, 4, 3))
    ensures Lex(runes, Cursor(26, 27, 4, 3)) == Step(Token(Colon, ":", 4, 3), Cursor(27, 28, 4, 4))
    ensures Lex(runes, Cursor(27, 28, 4, 4)) == Step(Token(StringLit, "s", 4, 4), Cursor(30, 31, 4, 7))
  {
    AdvancedStep0(runes);
    AdvancedStep1(runes);
    AdvancedStep2(runes);
    AdvancedStep3(runes);
    AdvancedStep4(runes);
    AdvancedStep5(runes);
    AdvancedStep6(runes);
    AdvancedStep7(runes);
    AdvancedStep8(runes);
    AdvancedStep9(runes);
    AdvancedStep10(runes);
    AdvancedStep11(runes);
  }

  /** TestNewLexer_AdvancedJSON (internal/json-lexer/lexer_test.go:152-193): NextToken calls 13 to 18 of 18,
      each starting from the state the previous one ends in. */
  lemma AdvancedTokens2(runes: seq<char>)
    requires AdvancedInput(runes)
    ensures Lex(runes, Cursor(30, 31, 4, 7)) == Step(Token(Comma, ",", 4, 7), Cursor(31, 32, 4, 8))
    ensures Lex(runes, Cursor(31, 32, 4, 8)) == Step(Token(StringLit, "n", 5, 0), Cursor(35, 36, 5, 3))
    ensures Lex(runes, Cursor(35, 36, 5, 3)) == Step(Token(Colon, ":", 5, 3), Cursor(36, 37, 5, 4))
    ensures Lex(runes, Cursor(36, 37, 5, 4)) == Step(Token(NumberLit, "-12.345", 5, 4), Cursor(43, 44, 5, 11))
    ensures Lex(runes, Cursor(43, 44, 5, 11)) == Step(Token(RBrace, "}", 6, 0), Cursor(45, 46, 6, 1))
    ensures Lex(runes, Cursor(45, 46, 6, 1)) == Step(Token(Eof, "EOF", 6, 1), Cursor(46, 47, 6, 2))
  {
    AdvancedStep12(runes);
    AdvancedStep13(runes);
    AdvancedStep14(runes);
    AdvancedStep15(runes);
    AdvancedStep16(runes);
    AdvancedStep17(runes);
  }

  /** The input of TestNewLexer_NumberLiterals (internal/json-lexer/lexer_test.go:59-119), rune by rune. */
  predicate NumbersInput(runes: seq<char>) {
    |runes| == 105 && runes[0] == '{' && runes[1] == '\n' && runes[2] == '"' &&
    runes[3] == 'n' && runes[4] == '1' && runes[5] == '"' && runes[6] == ':' &&
    runes[7] == '0' && runes[8] == ',' && runes[9] == '\n' && runes[10] == '"' &&
    runes[11] == 'n' && runes[12] == '2' && runes[13] == '"' && runes[14] == ':' &&
    runes[15] == '1' && runes[16] == '2' && runes[17] == '3' && runes[18] == '4' &&
    runes[19] == '5' && runes[20] == '6' && runes[21] == '7' && runes[22] == '8' &&
    runes[23] == '9' && runes[24] == '0' && runes[25] == ',' && runes[26] == '\n' &&
    runes[27] == '"' && runes[28] == 'n' && runes[29] == '3' && runes[30] == '"' &&
    runes[31] == ':' && runes[32] == '-' && runes[33] == '1' && runes[34] == '2' &&
    runes[35] == ',' && runes[36] == '\n' && runes[37] == '"' && runes[38] == 'n' &&
    runes[39] == '4' && runes[40] == '"' && runes[41] == ':' && runes[42] == '-' &&
    runes[43] == '1' && runes[44] == '2' && runes[45] == '.' && runes[46] == '3' &&
    runes[47] == '4' && runes[48] == '5' && runes[49] == ',' && runes[50] == '\n' &&
    runes[51] == '"' && runes[52] == 'n' && runes[53] == '5' && runes[54] == '"' &&
    runes[55] == ':' && runes[56] == '-' && runes[57] == '1' && runes[58] == '2' &&
    runes[59] == '.' && runes[60] == '3' && runes[61] == '4' && runes[62] == '5' &&
    runes[63] == 'e' && runes[64] == '1' && runes[65] == '2' && runes[66] == ',' &&
    runes[67] == '\n' && runes[68] == '"' && runes[69] == 'n' && runes[70] == '6' &&
    runes[71] == '"' && runes[72] == ':' && runes[73] == '-' && runes[74] == '1' &&
    runes[75] == '2' && runes[76] == '.' && runes[77] == '3' && runes[78] == '4' &&
    runes[79] == '5' && runes[80] == 'E' && runes[81] == '-' && runes[82] == '1' &&
    runes[83] == '2' && runes[84] == ',' && runes[85] == '\n' && runes[86] == '"' &&
    runes[87] == 'n' && runes[88] == '7' && runes[89] == '"' && runes[90] == ':' &&
    runes[91] == '-' && runes[92] == '1' && runes[93] == '2' && runes[94] == '.' &&
    runes[95] == '3' && runes[96] == '4' && runes[97] == '5' && runes[98] == 'E' &&
    runes[99] == '+' && runes[100] == '1' && runes[101] == '2' && runes[102] == ',' &&
    runes[103] == '\n' && runes[104] == '}'
  }

  lemma NumbersStep0(runes: seq<char>)
    requires NumbersInput(runes)
    ensures Lex(runes, Cursor(0, 1, 1, 0)) == Step(Token(LBrace, "{", 1, 0), Cursor(1, 2, 1, 1))
  {
    DelimiterToken(runes, Cursor(0, 1, 1, 0), LBrace);
  }

  lemma NumbersStep1(runes: seq<char>)
    requires NumbersInput(runes)
    ensures Lex(runes, Cursor(1, 2, 1, 1)) == Step(Token(StringLit, "n1", 2, 0), Cursor(6, 7, 2, 4))
  {
    assert SkipBlanks(runes, Cursor(1, 2, 1, 1)) == SkipBlanks(runes, Cursor(2, 3, 2, 0)) == Cursor(2, 3, 2, 0);
    assert StringScan(runes, 5) == Some(5);
    assert StringScan(runes, 4) == Some(5);
    assert StringScan(runes, 3) == Some(5);
    assert runes[3..5] == "n1";
  }

  lemma NumbersStep2(runes: seq<char>)
    requires NumbersInput(runes)
    ensures Lex(runes, Cursor(6, 7, 2, 4)) == Step(Token(Colon, ":", 2, 4), Cursor(7, 8, 2, 5))
  {
    DelimiterToken(runes, Cursor(6, 7, 2, 4), Colon);
  }

  lemma NumbersStep3(runes: seq<char>)
    requires NumbersInput(runes)
    ensures Lex(runes, Cursor(7, 8, 2, 5)) == Step(Token(NumberLit, "0", 2, 5), Cursor(8, 9, 2, 6))
  {
    assert DigitsEnd(runes, 8) == 8;
    assert DigitsEnd(runes, 7) == 8;
    assert DigitsEnd(runes, 8) == 8;
    assert MantissaEnd(runes, 7) == 8;
    assert ExponentEnd(runes, 8) == 8;
    assert runes[7..8] == "0";
  }

  lemma NumbersStep4(runes: seq<char>)
    requires NumbersInput(runes)
    ensures Lex(runes, Cursor(8, 9, 2, 6)) == Step(Token(Comma, ",", 2, 6), Cursor(9, 10, 2, 7))
  {
    DelimiterToken(runes, Cursor(8, 9, 2, 6), Comma);
  }

  lemma NumbersStep5(runes: seq<char>)
    requires NumbersInput(runes)
    ensures Lex(runes, Cursor(9, 10, 2, 7)) == Step(Token(StringLit, "n2", 3, 0), Cursor(14, 15, 3, 4))
  {
    assert SkipBlanks(runes, Cursor(9, 10, 2, 7)) == SkipBlanks(runes, Cursor(10, 11, 3, 0)) == Cursor(10, 11, 3, 0);
    assert StringScan(runes, 13) == Some(13);
    assert StringScan(runes, 12) == Some(13);
    assert StringScan(runes, 11) == Some(13);
    assert runes[11..13] == "n2";
  }

  lemma NumbersStep6(runes: seq<char>)
    requires NumbersInput(runes)
    ensures Lex(runes, Cursor(14, 15, 3, 4)) == Step(Token(Colon, ":", 3, 4), Cursor(15, 16, 3, 5))
  {
    DelimiterToken(runes, Cursor(14, 15, 3, 4), Colon);
  }

  lemma NumbersStep7(runes: seq<char>)
    requires NumbersInput(runes)
    ensures Lex(runes, Cursor(15, 16, 3, 5)) == Step(Token(NumberLit, "1234567890", 3, 5), Cursor(25, 26, 3, 15))
  {
    assert DigitsEnd(runes, 25) == 25;
    assert DigitsEnd(runes, 24) == 25;
    assert DigitsEnd(runes, 23) == 25;
    assert DigitsEnd(runes, 22) == 25;
    assert DigitsEnd(runes, 21) == 25;
    assert DigitsEnd(runes, 20) == 25;
    assert DigitsEnd(runes, 19) == 25;
    assert DigitsEnd(runes, 18) == 25;
    assert DigitsEnd(runes, 17) == 25;
    assert DigitsEnd(runes, 16) == 25;
    assert DigitsEnd(runes, 15) == 25;
    assert DigitsEnd(runes, 25) == 25;
    assert MantissaEnd(runes, 15) == 25;
    assert ExponentEnd(runes, 25) == 25;
    assert runes[15..25] == "1234567890";
  }

  lemma NumbersStep8(runes: seq<char>)
    requires NumbersInput(runes)
    ensures Lex(runes, Cursor(25, 26, 3, 15)) == Step(Token(Comma, ",", 3, 15), Cursor(26, 27, 3, 16))
  {
    DelimiterToken(runes, Cursor(25, 26, 3, 15), Comma);
  }

  lemma NumbersStep9(runes: seq<char>)
    requires NumbersInput(runes)
    ensures Lex(runes, Cursor(26, 27, 3, 16)) == Step(Token(StringLit, "n3", 4, 0), Cursor(31, 32, 4, 4))
  {
    assert SkipBlanks(runes, Cursor(26, 27, 3, 16)) == SkipBlanks(runes, Cursor(27, 28, 4, 0)) == Cursor(27, 28, 4, 0);
    assert StringScan(runes, 30) == Some(30);
    assert StringScan(runes, 29) == Some(30);
    assert StringScan(runes, 28) == Some(30);
    assert runes[28..30] == "n3";
  }

  lemma NumbersStep10(runes: seq<char>)
    requires NumbersInput(runes)
    ensures Lex(runes, Cursor(31, 32, 4, 4)) == Step(Token(Colon, ":", 4, 4), Cursor(32, 33, 4, 5))
  {
    DelimiterToken(runes, Cursor(31, 32, 4, 4), Colon);
  }

  lemma NumbersStep11(runes: seq<char>)
    requires NumbersInput(runes)
    ensures Lex(runes, Cursor(32, 33, 4, 5)) == Step(Token(NumberLit, "-12", 4, 5), Cursor(35, 36, 4, 8))
  {
    assert DigitsEnd(runes, 35) == 35;
    assert DigitsEnd(runes, 34) == 35;
    assert DigitsEnd(runes, 33) == 35;
    assert DigitsEnd(runes, 35) == 35;
    assert MantissaEnd(runes, 32) == 35;
    assert ExponentEnd(runes, 35) == 35;
    assert runes[32..35] == "-12";
  }

  lemma NumbersStep12(runes: seq<char>)
    requires NumbersInput(runes)
    ensures Lex(runes, Cursor(35, 36, 4, 8)) == Step(Token(Comma, ",", 4, 8), Cursor(36, 37, 4, 9))
  {
    DelimiterToken(runes, Cursor(35, 36, 4, 8), Comma);
  }

  lemma NumbersStep13(runes: seq<char>)
    requires NumbersInput(runes)
    ensures Lex(runes, Cursor(36, 37, 4, 9)) == Step(Token(StringLit, "n4", 5, 0), Cursor(41, 42, 5, 4))
  {
    assert SkipBlanks(runes, Cursor(36, 37, 4, 9)) == SkipBlanks(runes, Cursor(37, 38, 5, 0)) == Cursor(37, 38, 5, 0);
    assert StringScan(runes, 40) == Some(40);
    assert StringScan(runes, 39) == Some(40);
    assert StringScan(runes, 38) == Some(40);
    assert runes[38..40] == "n4";
  }

  lemma NumbersStep14(runes: seq<char>)
    requires NumbersInput(runes)
    ensures Lex(runes, Cursor(41, 42, 5, 4)) == Step(Token(Colon, ":", 5, 4), Cursor(42, 43, 5, 5))
  {
    DelimiterToken(runes, Cursor(41, 42, 5, 4), Colon);
  }

  lemma NumbersStep15(runes: seq<char>)
    requires NumbersInput(runes)
    ensures Lex(runes, Cursor(42, 43, 5, 5)) == Step(Token(NumberLit, "-12.345", 5, 5), Cursor(49, 50, 5, 12))
  {
    assert DigitsEnd(runes, 45) == 45;
    assert DigitsEnd(runes, 44) == 45;
    assert DigitsEnd(runes, 43) == 45;
    assert DigitsEnd(runes, 49) == 49;
    assert DigitsEnd(runes, 48) == 49;
    assert DigitsEnd(runes, 47) == 49;
    assert DigitsEnd(runes, 46) == 49;
    assert MantissaEnd(runes, 42) == 49;
    assert ExponentEnd(runes, 49) == 49;
    assert runes[42..49] == "-12.345";
  }

  lemma NumbersStep16(runes: seq<char>)
    requires NumbersInput(runes)
    ensures Lex(runes, Cursor(49, 50, 5, 12)) == Step(Token(Comma, ",", 5, 12), Cursor(50, 51, 5, 13))
  {
    DelimiterToken(runes, Cursor(49, 50, 5, 12), Comma);
  }

  lemma NumbersStep17(runes: seq<char>)
    requires NumbersInput(runes)
    ensures Lex(runes, Cursor(50, 51, 5, 13)) == Step(Token(StringLit, "n5", 6, 0), Cursor(55, 56, 6, 4))
  {
    assert SkipBlanks(runes, Cursor(50, 51, 5, 13)) == SkipBlanks(runes, Cursor(51, 52, 6, 0)) == Cursor(51, 52, 6, 0);
    assert StringScan(runes, 54) == Some(54);
    assert StringScan(runes, 53) == Some(54);
    assert StringScan(runes, 52) == Some(54);
    assert runes[52..54] == "n5";
  }

  lemma NumbersStep18(runes: seq<char>)
    requires NumbersInput(runes)
    ensures Lex(runes, Cursor(55, 56, 6, 4)) == Step(Token(Colon, ":", 6, 4), Cursor(56, 57, 6, 5))
  {
    DelimiterToken(runes, Cursor(55, 56, 6, 4), Colon);
  }

  lemma NumbersStep19(runes: seq<char>)
    requires NumbersInput(runes)
    ensures Lex(runes, Cursor(56, 57, 6, 5)) == Step(Token(NumberLit, "-12.345e12", 6, 5), Cursor(66, 67, 6, 15))
  {
    assert DigitsEnd(runes, 59) == 59;
    assert DigitsEnd(runes, 58) == 59;
    assert DigitsEnd(runes, 57) == 59;
    assert DigitsEnd(runes, 63) == 63;
    assert DigitsEnd(runes, 62) == 63;
    assert DigitsEnd(runes, 61) == 63;
    assert DigitsEnd(runes, 60) == 63;
    assert MantissaEnd(runes, 56) == 63;
    assert DigitsEnd(runes, 66) == 66;
    assert DigitsEnd(runes, 65) == 66;
    assert DigitsEnd(runes, 64) == 66;
    assert ExponentEnd(runes, 63) == 66;
    assert runes[56..66] == "-12.345e12";
  }

  lemma NumbersStep20(runes: seq<char>)
    requires NumbersInput(runes)
    ensures Lex(runes, Cursor(66, 67, 6, 15)) == Step(Token(Comma, ",", 6, 15), Cursor(67, 68, 6, 16))
  {
    DelimiterToken(runes, Cursor(66, 67, 6, 15), Comma);
  }

  lemma NumbersStep21(runes: seq<char>)
    requires NumbersInput(runes)
    ensures Lex(runes, Cursor(67, 68, 6, 16)) == Step(Token(StringLit, "n6", 7, 0), Cursor(72, 73, 7, 4))
  {
    assert SkipBlanks(runes, Cursor(67, 68, 6, 16)) == SkipBlanks(runes, Cursor(68, 69, 7, 0)) == Cursor(68, 69, 7, 0);
    assert StringScan(runes, 71) == Some(71);
    assert StringScan(runes, 70) == Some(71);
    assert StringScan(runes, 69) == Some(71);
    assert runes[69..71] == "n6";
  }

  lemma NumbersStep22(runes: seq<char>)
    requires NumbersInput(runes)
    ensures Lex(runes, Cursor(72, 73, 7, 4)) == Step(Token(Colon, ":", 7, 4), Cursor(73, 74, 7, 5))
  {
    DelimiterToken(runes, Cursor(72, 73, 7, 4), Colon);
  }

  lemma NumbersStep23(runes: seq<char>)
    requires NumbersInput(runes)
    ensures Lex(runes, Cursor(73, 74, 7, 5)) == Step(Token(NumberLit, "-12.345E-12", 7, 5), Cursor(84, 85, 7, 16))
  {
    assert DigitsEnd(runes, 76) == 76;
    assert DigitsEnd(runes, 75) == 76;
    assert DigitsEnd(runes, 74) == 76;
    assert DigitsEnd(runes, 80) == 80;
    assert DigitsEnd(runes, 79) == 80;
    assert DigitsEnd(runes, 78) == 80;
    assert DigitsEnd(runes, 77) == 80;
    assert MantissaEnd(runes, 73) == 80;
    assert DigitsEnd(runes, 84) == 84;
    assert DigitsEnd(runes, 83) == 84;
    assert DigitsEnd(runes, 82) == 84;
    assert ExponentEnd(runes, 80) == 84;
    assert runes[73..84] == "-12.345E-12";
  }

  lemma NumbersStep24(runes: seq<char>)
    requires NumbersInput(runes)
    ensures Lex(runes, Cursor(84, 85, 7, 16)) == Step(Token(Comma, ",", 7, 16), Cursor(85, 86, 7, 17))
  {
    DelimiterToken(runes, Cursor(84, 85, 7, 16), Comma);
  }

  lemma NumbersStep25(runes: seq<char>)
    requires NumbersInput(runes)
    ensures Lex(runes, Cursor(85, 86, 7, 17)) == Step(Token(StringLit, "n7", 8, 0), Cursor(90, 91, 8, 4))
  {
    assert SkipBlanks(runes, Cursor(85, 86, 7, 17)) == SkipBlanks(runes, Cursor(86, 87, 8, 0)) == Cursor(86, 87, 8, 0);
    assert StringScan(runes, 89) == Some(89);
    assert StringScan(runes, 88) == Some(89);
    assert StringScan(runes, 87) == Some(89);
    assert runes[87..89] == "n7";
  }

  lemma NumbersStep26(runes: seq<char>)
    requires NumbersInput(runes)
    ensures Lex(runes, Cursor(90, 91, 8, 4)) == Step(Token(Colon, ":", 8, 4), Cursor(91, 92, 8, 5))
  {
    DelimiterToken(runes, Cursor(90, 91, 8, 4), Colon);
  }

  lemma NumbersStep27(runes: seq<char>)
    requires NumbersInput(runes)
    ensures Lex(runes, Cursor(91, 92, 8, 5)) == Step(Token(NumberLit, "-12.345E+12", 8, 5), Cursor(102, 103, 8, 16))
  {
    assert DigitsEnd(runes, 94) == 94;
    assert DigitsEnd(runes, 93) == 94;
    assert DigitsEnd(runes, 92) == 94;
    assert DigitsEnd(runes, 98) == 98;
    assert DigitsEnd(runes, 97) == 98;
    assert DigitsEnd(runes, 96) == 98;
    assert DigitsEnd(runes, 95) == 98;
    assert MantissaEnd(runes, 91) == 98;
    assert DigitsEnd(runes, 102) == 102;
    assert DigitsEnd(runes, 101) == 102;
    assert DigitsEnd(runes, 100) == 102;
    assert ExponentEnd(runes, 98) == 102;
    assert runes[91..102] == "-12.345E+12";
  }

  lemma NumbersStep28(runes: seq<char>)
    requires NumbersInput(runes)
    ensures Lex(runes, Cursor(102, 103, 8, 16)) == Step(Token(Comma, ",", 8, 16), Cursor(103, 104, 8, 17))
  {
    DelimiterToken(runes, Cursor(102, 103, 8, 16), Comma);
  }

  lemma NumbersStep29(runes: seq<char>)
    requires NumbersInput(runes)
    ensures Lex(runes, Cursor(103, 104, 8, 17)) == Step(Token(RBrace, "}", 9, 0), Cursor(105, 106, 9, 1))
  {
    assert SkipBlanks(runes, Cursor(103, 104, 8, 17)) == SkipBlanks(runes, Cursor(104, 105, 9, 0)) == Cursor(104, 105, 9, 0);
    DelimiterToken(runes, Cursor(104, 105, 9, 0), RBrace);
  }

  lemma NumbersStep30(runes: seq<char>)
    requires NumbersInput(runes)
    ensures Lex(runes, Cursor(105, 106, 9, 1)) == Step(Token(Eof, "EOF", 9, 1), Cursor(106, 107, 9, 2))
  {
  }

  /** TestNewLexer_NumberLiterals (internal/json-lexer/lexer_test.go:59-119): NextToken calls 1 to 12 of 31,
      each starting from the state the previous one ends in. */
  lemma NumbersTokens1(runes: seq<char>)
    requires NumbersInput(runes)
    ensures Lex(runes, Cursor(0, 1, 1, 0)) == Step(Token(LBrace, "{", 1, 0), Cursor(1, 2, 1, 1))
    ensures Lex(runes, Cursor(1, 2, 1, 1)) == Step(Token(StringLit, "n1", 2, 0), Cursor(6, 7, 2, 4))
    ensures Lex(runes, Cursor(6, 7, 2, 4)) == Step(Token(Colon, ":", 2, 4), Cursor(7, 8, 2, 5))
    ensures Lex(runes, Cursor(7, 8, 2, 5)) == Step(Token(NumberLit, "0", 2, 5), Cursor(8, 9, 2, 6))
    ensures Lex(runes, Cursor(8, 9, 2, 6)) == Step(Token(Comma, ",", 2, 6), Cursor(9, 10, 2, 7))
    ensures Lex(runes, Cursor(9, 10, 2, 7)) == Step(Token(StringLit, "n2", 3, 0), Cursor(14, 15, 3, 4))
    ensures Lex(runes, Cursor(14, 15, 3, 4)) == Step(Token(Colon, ":", 3, 4), Cursor(15, 16, 3, 5))
    ensures Lex(runes, Cursor(15, 16, 3, 5)) == Step(Token(NumberLit, "1234567890", 3, 5), Cursor(25, 26, 3, 15))
    ensures Lex(runes, Cursor(25, 26, 3, 15)) == Step(Token(Comma, ",", 3, 15), Cursor(26, 27, 3, 16))
    ensures Lex(runes, Cursor(26, 27, 3, 16)) == Step(Token(StringLit, "n3", 4, 0), Cursor(31, 32, 4, 4))
    ensures Lex(runes, Cursor(31, 32, 4, 4)) == Step(Token(Colon, ":", 4, 4), Cursor(32, 33, 4, 5))
    ensures Lex(runes, Cursor(32, 33, 4, 5)) == Step(Token(NumberLit, "-12", 4, 5), Cursor(35, 36, 4, 8))
  {
    NumbersStep0(runes);
    NumbersStep1(runes);
    NumbersStep2(runes);
    NumbersStep3(runes);
    NumbersStep4(runes);
    NumbersStep5(runes);
    NumbersStep6(runes);
    NumbersStep7(runes);
    NumbersStep8(runes);
    NumbersStep9(runes);
    NumbersStep10(runes);
    NumbersStep11(runes);
  }

  /** TestNewLexer_NumberLiterals (internal/json-lexer/lexer_test.go:59-119): NextToken calls 13 to 24 of 31,
      each starting from the state the previous one ends in. */
  lemma NumbersTokens2(runes: seq<char>)
    requires NumbersInput(runes)
    ensures Lex(runes, Cursor(35, 36, 4, 8)) == Step(Token(Comma, ",", 4, 8), Cursor(36, 37, 4, 9))
    ensures Lex(runes, Cursor(36, 37, 4, 9)) == Step(Token(StringLit, "n4", 5, 0), Cursor(41, 42, 5, 4))
    ensures Lex(runes, Cursor(41, 42, 5, 4)) == Step(Token(Colon, ":", 5, 4), Cursor(42, 43, 5, 5))
    ensures Lex(runes, Cursor(42, 43, 5, 5)) == Step(Token(NumberLit, "-12.345", 5, 5), Cursor(49, 50, 5, 12))
    ensures Lex(runes, Cursor(49, 50, 5, 12)) == Step(Token(Comma, ",", 5, 12), Cursor(50, 51, 5, 13))
    ensures Lex(runes, Cursor(50, 51, 5, 13)) == Step(Token(StringLit, "n5", 6, 0), Cursor(55, 56, 6, 4))
    ensures Lex(runes, Cursor(55, 56, 6, 4)) == Step(Token(Colon, ":", 6, 4), Cursor(56, 57, 6, 5))
    ensures Lex(runes, Cursor(56, 57, 6, 5)) == Step(Token(NumberLit, "-12.345e12", 6, 5), Cursor(66, 67, 6, 15))
    ensures Lex(runes, Cursor(66, 67, 6, 15)) == Step(Token(Comma, ",", 6, 15), Cursor(67, 68, 6, 16))
    ensures Lex(runes, Cursor(67, 68, 6, 16)) == Step(Token(StringLit, "n6", 7, 0), Cursor(72, 73, 7, 4))
    ensures Lex(runes, Cursor(72, 73, 7, 4)) == Step(Token(Colon, ":", 7, 4), Cursor(73, 74, 7, 5))
    ensures Lex(runes, Cursor(73, 74, 7, 5)) == Step(Token(NumberLit, "-12.345E-12", 7, 5), Cursor(84, 85, 7, 16))
  {
    NumbersStep12(runes);
    NumbersStep13(runes);
    NumbersStep14(runes);
    NumbersStep15(runes);
    NumbersStep16(runes);
    NumbersStep17(runes);
    NumbersStep18(runes);
    NumbersStep19(runes);
    NumbersStep20(runes);
    NumbersStep21(runes);
    NumbersStep22(runes);
    NumbersStep23(runes);
  }

  /** TestNewLexer_NumberLiterals (internal/json-lexer/lexer_test.go:59-119): NextToken calls 25 to 31 of 31,
      each starting from the state the previous one ends in. */
  lemma NumbersTokens3(runes: seq<char>)
    requires NumbersInput(runes)
    ensures Lex(runes, Cursor(84, 85, 7, 16)) == Step(Token(Comma, ",", 7, 16), Cursor(85, 86, 7, 17))
    ensures Lex(runes, Cursor(85, 86, 7, 17)) == Step(Token(StringLit, "n7", 8, 0), Cursor(90, 91, 8, 4))
    ensures Lex(runes, Cursor(90, 91, 8, 4)) == Step(Token(Colon, ":", 8, 4), Cursor(91, 92, 8, 5))
    ensures Lex(runes, Cursor(91, 92, 8, 5)) == Step(Token(NumberLit, "-12.345E+12", 8, 5), Cursor(102, 103, 8, 16))
    ensures Lex(runes, Cursor(102, 103, 8, 16)) == Step(Token(Comma, ",", 8, 16), Cursor(103, 104, 8, 17))
    ensures Lex(runes, Cursor(103, 104, 8, 17)) == Step(Token(RBrace, "}", 9, 0), Cursor(105, 106, 9, 1))
    ensures Lex(runes, Cursor(105, 106, 9, 1)) == Step(Token(Eof, "EOF", 9, 1), Cursor(106, 107, 9, 2))
  {
    NumbersStep24(runes);
    NumbersStep25(runes);
    NumbersStep26(runes);
    NumbersStep27(runes);
    NumbersStep28(runes);
    NumbersStep29(runes);
    NumbersStep30(runes);
  }

}
