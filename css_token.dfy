/** The CSS tokenizer (css/token.rs): a cursor over the characters of a style sheet. */
module CssTokens {
  import opened Wrappers

  datatype CssToken =
    | HashToken(hash: string)
    | Delim(delim: char)
    | Number(number: real)
    | Colon
    | SemiColon
    | OpenParenthesis
    | CloseParenthesis
    | OpenCurly
    | CloseCurly
    | Ident(ident: string)
    | StringToken(str: string)
    | AtKeyword(keyword: string)

  /**
   * The tokenizer's panics: reading `input[pos]` one past the end, and the `unimplemented!` for a
   * character no token starts with.
   */
  datatype LexError = OutOfBounds(index: nat) | Unsupported(c: char)

  predicate IsAsciiLetter(c: char)
  {
    'a' <= c <= 'z' || 'A' <= c <= 'Z'
  }

  predicate IsDigit(c: char)
  {
    '0' <= c <= '9'
  }

  function DigitValue(c: char): nat
    requires IsDigit(c)
  {
    c as nat - '0' as nat
  }

  predicate IsIdentChar(c: char)
  {
    IsAsciiLetter(c) || IsDigit(c) || c == '_' || c == '-'
  }

  predicate IsQuote(c: char)
  {
    c == '"' || c == '\''
  }

  /** The characters that are a token on their own: `( ) , . : ; { }`. */
  predicate IsPunctuator(c: char)
  {
    c == '(' || c == ')' || c == ',' || c == '.' || c == ':' || c == ';' || c == '{' || c == '}'
  }

  /** Only space and newline separate tokens; any other white space is unsupported. */
  predicate IsSpace(c: char)
  {
    c == ' ' || c == '\n'
  }

  /** The character classes the tokenizer's inner loops run over. */
  datatype CharClass = IdentChars | NonQuotes | NumberChars | Spaces

  predicate InClass(c: char, k: CharClass)
  {
    match k
    case IdentChars => IsIdentChar(c)
    case NonQuotes => !IsQuote(c)
    case NumberChars => IsDigit(c) || c == '.'
    case Spaces => IsSpace(c)
  }

  /** The first index at or after `i` whose character is not in class `k`, or the end of input. */
  function Stop(input: seq<char>, i: nat, k: CharClass): (j: nat)
    requires i <= |input|
    ensures i <= j <= |input|
    ensures forall m :: i <= m < j ==> InClass(input[m], k)
    ensures j < |input| ==> !InClass(input[j], k)
    decreases |input| - i
  {
    if i == |input| || !InClass(input[i], k) then i else Stop(input, i + 1, k)
  }

  /** `Stop` is determined by its contract: a run of class characters ended by another or by the end. */
  lemma StopAt(input: seq<char>, i: nat, j: nat, k: CharClass)
    requires i <= j <= |input|
    requires forall m :: i <= m < j ==> InClass(input[m], k)
    requires j < |input| ==> !InClass(input[j], k)
    ensures Stop(input, i, k) == j
  {
  }

  // ---------------------------------------------------------------------------------------------
  // Numbers

  function Pow10(n: nat): (p: real)
    ensures p >= 1.0
  {
    if n == 0 then 1.0 else 10.0 * Pow10(n - 1)
  }

  predicate AllDigits(s: seq<char>)
  {
    forall i :: 0 <= i < |s| ==> IsDigit(s[i])
  }

  /** The positional value of a run of decimal digits: each digit times ten to the number of digits after it. */
  function Digits(s: seq<char>): real
    requires AllDigits(s)
  {
    if |s| == 0 then 0.0 else Weighted(DigitValue(s[0]), Pow10(|s| - 1)) + Digits(s[1..])
  }

  /** A digit times its place value. */
  function Weighted(digit: nat, place: real): real
  {
    digit as real * place
  }

  /**
   * The loop of `consume_numeric_token` as written: after a `.`, each digit first adds one tenth to
   * the weight, then adds digit times weight to the number.
   */
  function AsWrittenScan(s: seq<char>, num: real, floating: bool, weight: real): real
  {
    if |s| == 0 then num
    else if IsDigit(s[0]) then
      if floating then AsWrittenScan(s[1..], num + DigitValue(s[0]) as real * (weight + 0.1), true, weight + 0.1)
      else AsWrittenScan(s[1..], num * 10.0 + DigitValue(s[0]) as real, false, weight)
    else if s[0] == '.' then AsWrittenScan(s[1..], num, true, weight)
    else num
  }

  /** The number `consume_numeric_token` computes for the characters from its start position. */
  function AsWrittenNumber(s: seq<char>): real
  {
    AsWrittenScan(s, 0.0, false, 1.0)
  }

  /** `1.5` comes out as 1 + 5 * 1.1 instead of one and a half. */
  lemma AsWrittenFraction()
    ensures AsWrittenNumber("1.5") == 6.5
    ensures NumberValue("1.5") == 1.5
  {
  }

  /**
   * The loop of `consume_numeric_token` with the weight divided by ten per fractional digit, as
   * its comment says; the model's tokenizer uses this one.
   */
  function Scan(s: seq<char>, num: real, floating: bool, weight: real): real
  {
    if |s| == 0 then num
    else if IsDigit(s[0]) then
      if floating then Scan(s[1..], num + DigitValue(s[0]) as real * (weight / 10.0), true, weight / 10.0)
      else Scan(s[1..], num * 10.0 + DigitValue(s[0]) as real, false, weight)
    else if s[0] == '.' then Scan(s[1..], num, true, weight)
    else num
  }

  function NumberValue(s: seq<char>): real
  {
    Scan(s, 0.0, false, 1.0)
  }

  lemma ShiftDigit(num: real, a: real, p: real, b: real)
    ensures (num * 10.0 + a) * p + b == num * (10.0 * p) + (a * p + b)
  {
  }

  lemma NoShift(p: real, x: real)
    ensures 0.0 * p + x == x
  {
  }

  lemma ShiftFraction(num: real, a: real, w: real, rest: real, v: real)
    requires v == num + w * ((a + rest) / 10.0)
    ensures v == num + a * (w / 10.0) + (w / 10.0) * rest
  {
  }

  /** Before the point, each digit shifts the number one place: the integer part is positional. */
  lemma {:induction false} ScanInteger(d: seq<char>, rest: seq<char>, num: real, weight: real, v: real)
    requires AllDigits(d) && v == num * Pow10(|d|) + Digits(d)
    ensures Scan(d + rest, num, false, weight) == Scan(rest, v, false, weight)
    decreases |d|
  {
    if |d| == 0 {
      assert d + rest == rest;
    } else {
      assert (d + rest)[0] == d[0] && (d + rest)[1..] == d[1..] + rest;
      var a, p, b := DigitValue(d[0]) as real, Pow10(|d| - 1), Digits(d[1..]);
      ShiftDigit(num, a, p, b);
      ScanInteger(d[1..], rest, num * 10.0 + a, weight, v);
    }
  }

  lemma FractionDigitStep(f: seq<char>, num: real, weight: real)
    requires |f| > 0 && IsDigit(f[0])
    ensures Scan(f, num, true, weight) == Scan(f[1..], num + DigitValue(f[0]) as real * (weight / 10.0), true, weight / 10.0)
  {
  }

  /** After the point, the digits are read as the decimal fraction they spell, scaled by the weight at the point. */
  lemma {:induction false} ScanFraction(f: seq<char>, num: real, weight: real, v: real)
    requires AllDigits(f) && v == num + weight * Fraction(f)
    ensures Scan(f, num, true, weight) == v
    decreases |f|
  {
    if |f| > 0 {
      var a := DigitValue(f[0]) as real;
      FractionDigitStep(f, num, weight);
      ShiftFraction(num, a, weight, Fraction(f[1..]), v);
      ScanFraction(f[1..], num + a * (weight / 10.0), weight / 10.0, v);
    }
  }

  /** A digit run is read as its integer value. */
  lemma IntegerValue(d: seq<char>)
    requires AllDigits(d)
    ensures NumberValue(d) == Digits(d)
  {
    ScanInteger(d, [], 0.0, 1.0, Digits(d));
    assert d + [] == d;
  }

  /**
   * The value of the digits after a decimal point: the first digit in tenths, the rest a tenth of
   * their own fraction.
   */
  function Fraction(f: seq<char>): real
    requires AllDigits(f)
  {
    if |f| == 0 then 0.0 else (DigitValue(f[0]) as real + Fraction(f[1..])) / 10.0
  }

  /** `I.F` is read as the decimal number with integer part I and fraction digits F. */
  lemma DecimalValue(i: seq<char>, f: seq<char>)
    requires AllDigits(i) && AllDigits(f)
    ensures NumberValue(i + ['.'] + f) == Digits(i) + Fraction(f)
  {
    var point := ['.'] + f;
    assert i + ['.'] + f == i + point;
    ScanInteger(i, point, 0.0, 1.0, Digits(i));
    assert point[0] == '.' && point[1..] == f;
    assert Scan(point, Digits(i), false, 1.0) == Scan(f, Digits(i), true, 1.0);
    ScanFraction(f, Digits(i), 1.0, Digits(i) + Fraction(f));
  }

  /** The fraction digits F are worth Digits(F) / 10^|F|. */
  lemma {:induction false} FractionIsDecimal(f: seq<char>)
    requires AllDigits(f)
    ensures Scaled(Fraction(f), Pow10(|f|)) == Digits(f)
    decreases |f|
  {
    if |f| > 0 {
      FractionIsDecimal(f[1..]);
      FractionUnfold(f);
      DecimalStep(DigitValue(f[0]), Fraction(f[1..]), Pow10(|f| - 1), Digits(f[1..]), Pow10(|f|), Fraction(f), Digits(f));
    }
  }

  lemma FractionUnfold(f: seq<char>)
    requires |f| > 0 && AllDigits(f)
    ensures Pow10(|f|) == 10.0 * Pow10(|f| - 1)
    ensures Fraction(f) == (DigitValue(f[0]) as real + Fraction(f[1..])) / 10.0
    ensures Digits(f) == Weighted(DigitValue(f[0]), Pow10(|f| - 1)) + Digits(f[1..])
  {
  }

  /** `x` times the scale `p`. */
  function Scaled(x: real, p: real): real
  {
    x * p
  }

  lemma DecimalStep(a: nat, rest: real, p: real, digitsRest: real, scale: real, fraction: real, digits: real)
    requires Scaled(rest, p) == digitsRest && scale == 10.0 * p
    requires fraction == (a as real + rest) / 10.0 && digits == Weighted(a, p) + digitsRest
    ensures Scaled(fraction, scale) == digits
  {
  }

  // ---------------------------------------------------------------------------------------------
  // The token at a position

  /** A token and the cursor position after it. */
  datatype Lexed = Lexed(token: Option<CssToken>, next: nat)

  /**
   * `consume_ident_token` from `p`: the character at `p` then the identifier characters after it.
   * The result is the end index; a run that reaches the end of input reads one past it.
   */
  function IdentEnd(input: seq<char>, p: nat): (r: Result<nat, LexError>)
    requires p < |input|
    ensures r.Ok? <==> exists e :: p < e < |input| && !IsIdentChar(input[e])
    ensures r.Ok? ==> (p < r.value < |input| && !IsIdentChar(input[r.value]) &&
      forall m :: p < m < r.value ==> IsIdentChar(input[m]))
    ensures r.Err? ==> r.error == OutOfBounds(|input|)
  {
    var e := Stop(input, p + 1, IdentChars);
    if e == |input| then
      assert forall e' :: p < e' < |input| ==> IsIdentChar(input[e']) by {
        forall e' | p < e' < |input| ensures IsIdentChar(input[e']) {
          assert InClass(input[e'], IdentChars);
        }
      }
      Err(OutOfBounds(|input|))
    else Ok(e)
  }

  /** An identifier-like token whose text starts at `from`. */
  function IdentLike(input: seq<char>, from: nat, kind: IdentKind): (r: Result<Lexed, LexError>)
    requires from < |input|
  {
    match IdentEnd(input, from)
    case Ok(e) => Ok(Lexed(Some(kind.Make(input[from..e])), e))
    case Err(err) => Err(err)
  }

  datatype IdentKind = HashKind | IdentKind | AtKind
  {
    function Make(s: string): CssToken
    {
      match this
      case HashKind => HashToken(s)
      case IdentKind => Ident(s)
      case AtKind => AtKeyword(s)
    }
  }

  /** `consume_string_token` from the opening quote at `p`: either quote character closes it. */
  function StringAt(input: seq<char>, p: nat): (r: Result<Lexed, LexError>)
    requires p < |input|
    ensures r.Ok? ==> (r.value.next <= |input| && r.value.token.Some? && r.value.token.value.StringToken? &&
      var s := r.value.token.value.str;
      r.value.next == p + |s| + 2 && s == input[p + 1..r.value.next - 1] &&
      IsQuote(input[r.value.next - 1]) && forall m :: 0 <= m < |s| ==> !IsQuote(s[m]))
    ensures r.Err? <==> forall m :: p < m < |input| ==> !IsQuote(input[m])
  {
    var e := Stop(input, p + 1, NonQuotes);
    if e == |input| then Err(OutOfBounds(|input|))
    else
      var s := input[p + 1..e];
      assert forall m :: 0 <= m < |s| ==> !IsQuote(s[m]) by {
        forall m | 0 <= m < |s| ensures !IsQuote(s[m]) {
          assert s[m] == input[p + 1 + m] && InClass(input[p + 1 + m], NonQuotes);
        }
      }
      Ok(Lexed(Some(StringToken(input[p + 1..e])), e + 1))
  }

  /** `@` starts an at-keyword when the next three characters are letters; the bound check allows one too few. */
  function AtSign(input: seq<char>, p: nat): (r: Result<Lexed, LexError>)
    requires p < |input| && input[p] == '@'
  {
    if |input| >= p + 3 && IsAsciiLetter(input[p + 1]) && IsAsciiLetter(input[p + 2]) then
      if p + 3 == |input| then Err(OutOfBounds(p + 3))
      else if IsAsciiLetter(input[p + 3]) then IdentLike(input, p + 1, AtKind)
      else Ok(Lexed(Some(Delim('@')), p + 1))
    else Ok(Lexed(Some(Delim('@')), p + 1))
  }

  /** The token starting at a character that is not a separator. */
  function TokenAt(input: seq<char>, p: nat): (r: Result<Lexed, LexError>)
    requires p < |input| && !IsSpace(input[p])
    ensures r.Ok? ==> p < r.value.next <= |input| && r.value.token.Some?
  {
    var c := input[p];
    var single := Lexed(Some(SingleCharToken(c)), p + 1);
    if IsPunctuator(c) then Ok(single)
    else if IsQuote(c) then StringAt(input, p)
    else if IsDigit(c) then
      var e := Stop(input, p, NumberChars);
      Ok(Lexed(Some(Number(NumberValue(input[p..]))), e))
    else if c == '#' || c == '-' then IdentLike(input, p, if c == '#' then HashKind else IdentKind)
    else if c == '@' then AtSign(input, p)
    else if IsAsciiLetter(c) || c == '_' then IdentLike(input, p, IdentKind)
    else Err(Unsupported(c))
  }

  /** The fixed tokens of the one-character punctuators. */
  function SingleCharToken(c: char): CssToken
  {
    match c
    case '(' => OpenParenthesis
    case ')' => CloseParenthesis
    case ':' => Colon
    case ';' => SemiColon
    case '{' => OpenCurly
    case '}' => CloseCurly
    case _ => Delim(c)
  }

  /** `next`: skip spaces and newlines, then read one token; at the end of input there is none. */
  function NextToken(input: seq<char>, pos: nat): (r: Result<Lexed, LexError>)
    requires pos <= |input|
    ensures r.Ok? ==> pos <= r.value.next <= |input|
    ensures r.Ok? && r.value.token.Some? ==> pos < r.value.next
    ensures r.Ok? && r.value.token.None? <==> forall m :: pos <= m < |input| ==> IsSpace(input[m])
  {
    var p := Stop(input, pos, Spaces);
    if p == |input| then Ok(Lexed(None, p)) else TokenAt(input, p)
  }

  /** All the tokens from `pos`, as the parser pulls them one by one. */
  function Tokenize(input: seq<char>, pos: nat): (r: Result<seq<CssToken>, LexError>)
    requires pos <= |input|
    ensures r.Ok? ==> |r.value| <= |input| - pos
    ensures (forall m :: pos <= m < |input| ==> IsSpace(input[m])) ==> r == Ok([])
    decreases |input| - pos
  {
    match NextToken(input, pos)
    case Err(e) => Err(e)
    case Ok(Lexed(None, _)) => Ok([])
    case Ok(Lexed(Some(t), next)) =>
      match Tokenize(input, next)
      case Ok(rest) => Ok([t] + rest)
      case Err(e) => Err(e)
  }

  // ---------------------------------------------------------------------------------------------
  // What a token says about the text it came from

  /** An identifier starts with a letter, `_` or `-`, runs over identifier characters, and is followed by another character. */
  lemma IdentShape(input: seq<char>, pos: nat)
    requires pos <= |input|
    requires NextToken(input, pos).Ok? && NextToken(input, pos).value.token.Some?
    requires NextToken(input, pos).value.token.value.Ident?
    ensures var l := NextToken(input, pos).value;
      var s := l.token.value.ident;
      |s| > 0 && l.next < |input| && !IsIdentChar(input[l.next]) &&
      s == input[l.next - |s|..l.next] &&
      (IsAsciiLetter(s[0]) || s[0] == '_' || s[0] == '-') &&
      forall m :: 0 <= m < |s| ==> IsIdentChar(s[m])
  {
    var p := Stop(input, pos, Spaces);
    var c := input[p];
    var e := IdentEnd(input, p).value;
    assert input[p..e][0] == c;
    assert forall m :: 0 <= m < |input[p..e]| ==> input[p..e][m] == input[p + m];
  }

  /** A hash token keeps its `#`. */
  lemma HashKeepsSign(input: seq<char>, pos: nat)
    requires pos <= |input|
    requires NextToken(input, pos).Ok? && NextToken(input, pos).value.token.Some?
    requires NextToken(input, pos).value.token.value.HashToken?
    ensures var s := NextToken(input, pos).value.token.value.hash; |s| > 0 && s[0] == '#'
  {
    var p := Stop(input, pos, Spaces);
    var e := IdentEnd(input, p).value;
    assert input[p..e][0] == input[p];
  }

  /** An at-keyword is `@` and at least three letters, the `@` dropped. */
  lemma AtKeywordShape(input: seq<char>, pos: nat)
    requires pos <= |input|
    requires NextToken(input, pos).Ok? && NextToken(input, pos).value.token.Some?
    requires NextToken(input, pos).value.token.value.AtKeyword?
    ensures var l := NextToken(input, pos).value;
      var s := l.token.value.keyword;
      |s| >= 3 && l.next - |s| > 0 && input[l.next - |s| - 1] == '@' && s == input[l.next - |s|..l.next] &&
      IsAsciiLetter(s[0]) && IsAsciiLetter(s[1]) && IsAsciiLetter(s[2])
  {
    var p := Stop(input, pos, Spaces);
    var e := IdentEnd(input, p + 1).value;
    assert e > p + 3 by {
      assert IsIdentChar(input[p + 2]) && IsIdentChar(input[p + 3]);
    }
    var s := input[p + 1..e];
    assert s[0] == input[p + 1] && s[1] == input[p + 2] && s[2] == input[p + 3];
  }

  /** Separators before a token are skipped. */
  lemma SkipSpaces(input: seq<char>, pos: nat, p: nat)
    requires pos <= p < |input| && !IsSpace(input[p])
    requires forall m :: pos <= m < p ==> IsSpace(input[m])
    ensures NextToken(input, pos) == TokenAt(input, p)
  {
    forall m | pos <= m < p ensures InClass(input[m], Spaces) {
    }
    StopAt(input, pos, p, Spaces);
  }

  /** `next` yields nothing exactly when only spaces and newlines remain. */
  lemma EndOfTokens(input: seq<char>, pos: nat)
    requires pos <= |input|
    ensures NextToken(input, pos) == Ok(Lexed(None, |input|)) <==> forall m :: pos <= m < |input| ==> IsSpace(input[m])
  {
    if forall m :: pos <= m < |input| ==> IsSpace(input[m]) {
      forall m | pos <= m < |input| ensures InClass(input[m], Spaces) {
      }
      StopAt(input, pos, |input|, Spaces);
    }
  }

  /** The punctuators `( ) , . : ; { }` are one-character tokens. */
  lemma PunctuatorToken(input: seq<char>, p: nat)
    requires p < |input| && IsPunctuator(input[p])
    ensures TokenAt(input, p) == Ok(Lexed(Some(SingleCharToken(input[p])), p + 1))
    ensures SingleCharToken(input[p]) in [OpenParenthesis, CloseParenthesis, Delim(','), Delim('.'), Colon, SemiColon, OpenCurly, CloseCurly]
  {
  }

  /** A letter, `_` or `-` starts an identifier that runs to the first other character. */
  lemma IdentToken(input: seq<char>, p: nat, e: nat)
    requires p < e < |input| && (IsAsciiLetter(input[p]) || input[p] == '_' || input[p] == '-')
    requires forall m :: p < m < e ==> IsIdentChar(input[m])
    requires !IsIdentChar(input[e])
    ensures TokenAt(input, p) == Ok(Lexed(Some(Ident(input[p..e])), e))
  {
    IdentRun(input, p, e);
  }

  /** `#` starts a hash token that keeps the `#` and runs to the first non-identifier character. */
  lemma HashTokenAt(input: seq<char>, p: nat, e: nat)
    requires p < e < |input| && input[p] == '#'
    requires forall m :: p < m < e ==> IsIdentChar(input[m])
    requires !IsIdentChar(input[e])
    ensures TokenAt(input, p) == Ok(Lexed(Some(HashToken(input[p..e])), e))
  {
    IdentRun(input, p, e);
  }

  lemma IdentRun(input: seq<char>, p: nat, e: nat)
    requires p < e < |input|
    requires forall m :: p < m < e ==> IsIdentChar(input[m])
    requires !IsIdentChar(input[e])
    ensures IdentEnd(input, p) == Ok(e)
  {
    forall m | p + 1 <= m < e ensures InClass(input[m], IdentChars) {
    }
    StopAt(input, p + 1, e, IdentChars);
  }

  /** An identifier that runs to the end of input reads one past it. */
  lemma IdentAtEnd(input: seq<char>, p: nat)
    requires p < |input| && (IsAsciiLetter(input[p]) || input[p] == '_')
    requires forall m :: p < m < |input| ==> IsIdentChar(input[m])
    ensures TokenAt(input, p) == Err(OutOfBounds(|input|))
  {
    forall m | p + 1 <= m < |input| ensures InClass(input[m], IdentChars) {
    }
    StopAt(input, p + 1, |input|, IdentChars);
  }

  /** A quote starts a string token holding the characters up to the next quote of either kind. */
  lemma StringTokenAt(input: seq<char>, p: nat, e: nat)
    requires p < e < |input| && IsQuote(input[p]) && IsQuote(input[e])
    requires forall m :: p < m < e ==> !IsQuote(input[m])
    ensures TokenAt(input, p) == Ok(Lexed(Some(StringToken(input[p + 1..e])), e + 1))
  {
    forall m | p + 1 <= m < e ensures InClass(input[m], NonQuotes) {
    }
    StopAt(input, p + 1, e, NonQuotes);
  }

  /** `@` and two letters at the very end pass the bound check and read one past the end. */
  lemma AtSignBoundCheck(input: seq<char>)
    requires |input| >= 3 && input[|input| - 3] == '@'
    requires IsAsciiLetter(input[|input| - 2]) && IsAsciiLetter(input[|input| - 1])
    ensures TokenAt(input, |input| - 3) == Err(OutOfBounds(|input|))
  {
  }

  /** A digit starts a number token reaching over the digits and points after it. */
  lemma DigitToken(input: seq<char>, p: nat)
    requires p < |input| && IsDigit(input[p])
    ensures TokenAt(input, p) == Ok(Lexed(Some(Number(NumberValue(input[p..]))), Stop(input, p, NumberChars)))
  {
  }

  /** A digit run without a point is read as its integer value, and the token ends at the run's end. */
  lemma IntegerToken(input: seq<char>, p: nat, d: seq<char>)
    requires |d| > 0 && AllDigits(d)
    requires p + |d| <= |input| && input[p..p + |d|] == d
    requires p + |d| == |input| || !(IsDigit(input[p + |d|]) || input[p + |d|] == '.')
    ensures TokenAt(input, p) == Ok(Lexed(Some(Number(Digits(d))), p + |d|))
  {
    DigitRun(input, p, d);
    DigitToken(input, p);
  }

  /** The facts `IntegerToken` needs about the run: it starts with a digit, ends at `p + |d|` and reads as `Digits(d)`. */
  lemma DigitRun(input: seq<char>, p: nat, d: seq<char>)
    requires |d| > 0 && AllDigits(d)
    requires p + |d| <= |input| && input[p..p + |d|] == d
    requires p + |d| == |input| || !(IsDigit(input[p + |d|]) || input[p + |d|] == '.')
    ensures p < |input| && IsDigit(input[p])
    ensures Stop(input, p, NumberChars) == p + |d| && NumberValue(input[p..]) == Digits(d)
  {
    assert input[p] == d[0];
    DigitRunEnd(input, p, d);
    DigitRunValue(input, p, d);
  }

  lemma DigitRunValue(input: seq<char>, pos: nat, d: seq<char>)
    requires AllDigits(d) && pos + |d| <= |input| && input[pos..pos + |d|] == d
    requires pos + |d| == |input| || !(IsDigit(input[pos + |d|]) || input[pos + |d|] == '.')
    ensures NumberValue(input[pos..]) == Digits(d)
  {
    var rest := input[pos + |d|..];
    assert input[pos..] == d + rest;
    if |rest| > 0 {
      assert rest[0] == input[pos + |d|];
    }
    IntegerPrefix(d, rest);
  }

  lemma DigitRunEnd(input: seq<char>, pos: nat, d: seq<char>)
    requires AllDigits(d) && pos + |d| <= |input| && input[pos..pos + |d|] == d
    requires pos + |d| == |input| || !(IsDigit(input[pos + |d|]) || input[pos + |d|] == '.')
    ensures Stop(input, pos, NumberChars) == pos + |d|
  {
    forall m | pos <= m < pos + |d| ensures InClass(input[m], NumberChars) {
      assert input[m] == d[m - pos];
    }
    StopAt(input, pos, pos + |d|, NumberChars);
  }

  /** The digits before the first character that is neither digit nor point make the number. */
  lemma IntegerPrefix(d: seq<char>, rest: seq<char>)
    requires AllDigits(d)
    requires |rest| > 0 ==> !(IsDigit(rest[0]) || rest[0] == '.')
    ensures NumberValue(d + rest) == Digits(d)
  {
    NoShift(Pow10(|d|), Digits(d));
    ScanInteger(d, rest, 0.0, 1.0, Digits(d));
  }

  /** A character no token starts with is the tokenizer's `unimplemented!` panic. */
  lemma UnsupportedCharacter(input: seq<char>, p: nat)
    requires p < |input| && !IsSpace(input[p]) && !IsPunctuator(input[p]) && !IsQuote(input[p])
    requires input[p] != '#' && input[p] != '-' && input[p] != '@' && input[p] != '_'
    requires !IsDigit(input[p]) && !IsAsciiLetter(input[p])
    ensures TokenAt(input, p) == Err(Unsupported(input[p]))
  {
  }

  /** Tokenizing continues after each token until `next` yields none. */
  lemma TokenizeStep(input: seq<char>, pos: nat, t: CssToken, next: nat, rest: seq<CssToken>)
    requires pos <= |input| && NextToken(input, pos) == Ok(Lexed(Some(t), next))
    requires next <= |input| && Tokenize(input, next) == Ok(rest)
    ensures Tokenize(input, pos) == Ok([t] + rest)
  {
  }

  // ---------------------------------------------------------------------------------------------
  // The tokenizer object

  class CssTokenizer {
    var pos: nat
    const input: seq<char>

    predicate Valid()
      reads this
    {
      pos <= |input|
    }

    constructor(css: string)
      ensures Valid() && pos == 0 && input == css
    {
      pos := 0;
      input := css;
    }

    /** From the opening quote: the characters up to the next quote, leaving the cursor on it. */
    method ConsumeStringToken() returns (r: Result<string, LexError>)
      requires pos < |input|
      modifies this
      ensures Valid()
      ensures var e := Stop(input, old(pos) + 1, NonQuotes);
        if e == |input| then r == Err(OutOfBounds(|input|))
        else r == Ok(input[old(pos) + 1..e]) && pos == e
    {
      var s := "";
      ghost var start := pos;
      // The source's end-of-input test at the top of the loop never fires: the cursor is in range there.
      while true
        invariant start <= pos < |input| && s == input[start + 1..pos + 1]
        invariant forall m :: start < m <= pos ==> InClass(input[m], NonQuotes)
        decreases |input| - pos
      {
        pos := pos + 1;
        if pos == |input| {
          StopAt(input, start + 1, pos, NonQuotes);
          return Err(OutOfBounds(pos));
        }
        var c := input[pos];
        if IsQuote(c) {
          StopAt(input, start + 1, pos, NonQuotes);
          return Ok(s);
        }
        s := s + [c];
      }
    }

    /** From a digit: digits and points, leaving the cursor on the first other character. */
    method ConsumeNumericToken() returns (num: real)
      requires Valid()
      modifies this
      ensures Valid() && pos == Stop(input, old(pos), NumberChars)
      ensures num == NumberValue(input[old(pos)..])
    {
      num := 0.0;
      var floating := false;
      var weight := 1.0;
      ghost var start := pos;
      while true
        invariant start <= pos <= |input|
        invariant forall m :: start <= m < pos ==> InClass(input[m], NumberChars)
        invariant Scan(input[start..], 0.0, false, 1.0) == Scan(input[pos..], num, floating, weight)
        decreases |input| - pos
      {
        if pos >= |input| {
          StopAt(input, start, pos, NumberChars);
          return;
        }
        assert input[pos..][1..] == input[pos + 1..];
        var c := input[pos];
        if IsDigit(c) {
          if floating {
            weight := weight / 10.0;
            num := num + DigitValue(c) as real * weight;
          } else {
            num := num * 10.0 + DigitValue(c) as real;
          }
          pos := pos + 1;
        } else if c == '.' {
          floating := true;
          pos := pos + 1;
        } else {
          StopAt(input, start, pos, NumberChars);
          return;
        }
      }
    }

    /** From `pos`: that character and the identifier characters after it, leaving the cursor on the next one. */
    method ConsumeIdentToken() returns (r: Result<string, LexError>)
      requires pos < |input|
      modifies this
      ensures Valid()
      ensures match IdentEnd(input, old(pos))
        case Ok(e) => r == Ok(input[old(pos)..e]) && pos == e
        case Err(err) => r == Err(err)
    {
      var s := [input[pos]];
      ghost var start := pos;
      while true
        invariant start <= pos < |input| && s == input[start..pos + 1]
        invariant forall m :: start + 1 <= m <= pos ==> InClass(input[m], IdentChars)
        decreases |input| - pos
      {
        pos := pos + 1;
        if pos == |input| {
          StopAt(input, start + 1, pos, IdentChars);
          return Err(OutOfBounds(pos));
        }
        var c := input[pos];
        if !IsIdentChar(c) {
          StopAt(input, start + 1, pos, IdentChars);
          return Ok(s);
        }
        s := s + [c];
      }
    }

    /** `next`: the next token, or none at the end of input. */
    method Next() returns (r: Result<Option<CssToken>, LexError>)
      requires Valid()
      modifies this
      ensures Valid()
      ensures match NextToken(input, old(pos))
        case Ok(l) => r == Ok(l.token) && pos == l.next
        case Err(e) => r == Err(e)
    {
      ghost var start := pos;
      while pos < |input| && IsSpace(input[pos])
        invariant start <= pos <= |input|
        invariant forall m :: start <= m < pos ==> InClass(input[m], Spaces)
        decreases |input| - pos
      {
        pos := pos + 1;
      }
      StopAt(input, start, pos, Spaces);
      if pos >= |input| {
        return Ok(None);
      }
      r := ReadToken();
    }

    /** The token the character under the cursor starts. */
    method ReadToken() returns (r: Result<Option<CssToken>, LexError>)
      requires pos < |input| && !IsSpace(input[pos])
      modifies this
      ensures Valid()
      ensures match TokenAt(input, old(pos))
        case Ok(l) => r == Ok(l.token) && pos == l.next
        case Err(e) => r == Err(e)
    {
      var c := input[pos];
      if IsPunctuator(c) {
        pos := pos + 1;
        return Ok(Some(SingleCharToken(c)));
      } else if IsQuote(c) {
        var value := ConsumeStringToken();
        if value.Err? {
          return Err(value.error);
        }
        pos := pos + 1;
        return Ok(Some(StringToken(value.value)));
      } else if IsDigit(c) {
        var num := ConsumeNumericToken();
        pos := pos - 1;
        pos := pos + 1;
        return Ok(Some(Number(num)));
      } else if c == '#' || c == '-' {
        r := ReadIdentLike(if c == '#' then HashKind else IdentKind);
      } else if c == '@' {
        r := ReadAtSign();
      } else if IsAsciiLetter(c) || c == '_' {
        r := ReadIdentLike(IdentKind);
      } else {
        return Err(Unsupported(c));
      }
    }

    /** An identifier or hash token: `consume_ident_token`, then the step back and the step past it. */
    method ReadIdentLike(kind: IdentKind) returns (r: Result<Option<CssToken>, LexError>)
      requires pos < |input|
      modifies this
      ensures Valid()
      ensures match IdentLike(input, old(pos), kind)
        case Ok(l) => r == Ok(l.token) && pos == l.next
        case Err(e) => r == Err(e)
    {
      var value := ConsumeIdentToken();
      if value.Err? {
        return Err(value.error);
      }
      pos := pos - 1;
      pos := pos + 1;
      return Ok(Some(kind.Make(value.value)));
    }

    /** `@`: an at-keyword when three letters follow, else a delimiter. */
    method ReadAtSign() returns (r: Result<Option<CssToken>, LexError>)
      requires pos < |input| && input[pos] == '@'
      modifies this
      ensures Valid()
      ensures match AtSign(input, old(pos))
        case Ok(l) => r == Ok(l.token) && pos == l.next
        case Err(e) => r == Err(e)
    {
      if |input| >= pos + 3 && IsAsciiLetter(input[pos + 1]) && IsAsciiLetter(input[pos + 2]) {
        if pos + 3 == |input| {
          return Err(OutOfBounds(pos + 3));
        }
        if IsAsciiLetter(input[pos + 3]) {
          pos := pos + 1;
          r := ReadIdentLike(AtKind);
          return;
        }
      }
      pos := pos + 1;
      return Ok(Some(Delim('@')));
    }
  }
}
