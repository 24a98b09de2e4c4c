/**
 * The JavaScript lexer (js/token.rs): punctuators and decimal numbers, blanks skipped. The
 * functions below say which token the lexer yields at a position and where it stops; the class
 * `JsLexer` walks its cursor as the source does and is proved to agree with them.
 */
module JsTokens {
  import opened Wrappers

  /** The largest value of a `u64`, the type of a number token. */
  const U64_MAX: nat := 0xFFFF_FFFF_FFFF_FFFF

  /** A token. The lexer produces only punctuators and numbers; the parser reads them all. */
  datatype Token =
    | Punctuator(c: char)
    | Number(value: nat)
    | Identifier(name: string)
    | Keyword(keyword: string)
    | StringLiteral(text: string)

  /** Why the lexer stops: a character it does not support (`unimplemented!`), or a number that does not fit a `u64`. */
  datatype LexError = Unsupported(c: char) | Overflow

  predicate IsBlank(c: char)
  {
    c == ' ' || c == '\n'
  }

  predicate IsPunctuator(c: char)
  {
    c == '+' || c == '-' || c == ';' || c == '=' || c == '(' || c == ')' || c == '{' || c == '}' || c == ',' || c == '.'
  }

  predicate IsDigit(c: char)
  {
    '0' <= c <= '9'
  }

  predicate AllDigits(s: seq<char>)
  {
    forall i :: 0 <= i < |s| ==> IsDigit(s[i])
  }

  /** The value of a run of decimal digits, read most significant first. */
  function DigitsValue(s: seq<char>): nat
    requires AllDigits(s)
  {
    if |s| == 0 then 0
    else DigitsValue(s[..|s| - 1]) * 10 + ((s[|s| - 1] as int) - ('0' as int))
  }

  /** Ten to the `n`. */
  function Power10(n: nat): nat
  {
    if n == 0 then 1 else 10 * Power10(n - 1)
  }

  /** A run of `k` digits is worth less than ten to the `k`. */
  lemma {:induction false} DigitsValueBound(s: seq<char>)
    requires AllDigits(s)
    ensures DigitsValue(s) < Power10(|s|)
  {
    if |s| > 0 {
      DigitsValueBound(s[..|s| - 1]);
    }
  }

  /** A run of digits is worth at least any of its prefixes: once the running value is too large, it stays too large. */
  lemma {:induction false} DigitsValuePrefix(s: seq<char>, k: nat)
    requires AllDigits(s) && k <= |s|
    ensures AllDigits(s[..k]) && DigitsValue(s[..k]) <= DigitsValue(s)
    decreases |s|
  {
    if k < |s| {
      var init := s[..|s| - 1];
      assert init[..k] == s[..k];
      DigitsValuePrefix(init, k);
    } else {
      assert s[..k] == s;
    }
  }

  /** Appending one digit: the running value times ten plus the digit. */
  lemma DigitsValueSnoc(s: seq<char>, c: char)
    requires AllDigits(s) && IsDigit(c)
    ensures AllDigits(s + [c]) && DigitsValue(s + [c]) == DigitsValue(s) * 10 + ((c as int) - ('0' as int))
  {
    assert (s + [c])[..|s|] == s;
  }

  /** The skip loop at the start of `next`: the first position from `pos` that is not a space or a newline. */
  function SkipBlanks(input: seq<char>, pos: nat): (r: nat)
    requires pos <= |input|
    ensures pos <= r <= |input|
    ensures forall i :: pos <= i < r ==> IsBlank(input[i])
    ensures r == |input| || !IsBlank(input[r])
    decreases |input| - pos
  {
    if pos == |input| || !IsBlank(input[pos]) then pos else SkipBlanks(input, pos + 1)
  }

  /** Where the digit run `consume_number` reads from `pos` ends. */
  function DigitEnd(input: seq<char>, pos: nat): (r: nat)
    requires pos <= |input|
    ensures pos <= r <= |input|
    ensures AllDigits(input[pos..r])
    ensures r == |input| || !IsDigit(input[r])
    decreases |input| - pos
  {
    if pos == |input| || !IsDigit(input[pos]) then pos
    else
      var r := DigitEnd(input, pos + 1);
      assert input[pos..r] == [input[pos]] + input[pos + 1..r];
      r
  }

  /** What one call of `next` yields, and the cursor after it. */
  datatype Lexed = Lexed(token: Option<Token>, next: nat)

  /**
   * `next` at cursor `pos`: nothing once only blanks are left; a punctuator, one character long;
   * a number, the whole digit run; anything else unsupported.
   */
  function LexAt(input: seq<char>, pos: nat): (r: Result<Lexed, LexError>)
    requires pos <= |input|
    ensures r.Ok? && r.value.token.None? <==> forall i :: pos <= i < |input| ==> IsBlank(input[i])
    ensures r.Ok? && r.value.token.None? ==> r.value.next == |input|
    ensures r.Ok? && r.value.token.Some? ==> pos < r.value.next <= |input|
    ensures r.Ok? && r.value.token.Some? ==> r.value.token.value.Punctuator? || r.value.token.value.Number?
    ensures r.Ok? && r.value.token.Some? && r.value.token.value.Punctuator? ==>
      var p := SkipBlanks(input, pos);
      r.value.next == p + 1 && r.value.token.value.c == input[p] && IsPunctuator(input[p])
    ensures r.Ok? && r.value.token.Some? && r.value.token.value.Number? ==>
      var p := SkipBlanks(input, pos);
      r.value.next == DigitEnd(input, p) > p && r.value.token.value.value == DigitsValue(input[p..r.value.next]) <= U64_MAX
  {
    var p := SkipBlanks(input, pos);
    if p == |input| then Ok(Lexed(None, p))
    else
      var c := input[p];
      if IsPunctuator(c) then Ok(Lexed(Some(Punctuator(c)), p + 1))
      else if IsDigit(c) then
        var e := DigitEnd(input, p);
        var v := DigitsValue(input[p..e]);
        if v > U64_MAX then Err(Overflow) else Ok(Lexed(Some(Number(v)), e))
      else Err(Unsupported(c))
  }

  /** Every token the lexer yields from `pos` on (what the parser's peekable stream reads), or the error that stops it. */
  function TokensFrom(input: seq<char>, pos: nat): (r: Result<seq<Token>, LexError>)
    requires pos <= |input|
    ensures r.Ok? ==> forall i :: 0 <= i < |r.value| ==> r.value[i].Punctuator? || r.value[i].Number?
    ensures r.Ok? ==> |r.value| <= |input| - pos
    decreases |input| - pos
  {
    match LexAt(input, pos)
    case Err(e) => Err(e)
    case Ok(Lexed(None, _)) => Ok([])
    case Ok(Lexed(Some(t), next)) =>
      match TokensFrom(input, next)
      case Err(e) => Err(e)
      case Ok(rest) => Ok([t] + rest)
  }

  /** The tokens from `pos`: the token `next` yields there, then the tokens after it. */
  lemma TokensFromStep(input: seq<char>, pos: nat, t: Token, next: nat)
    requires pos <= |input| && LexAt(input, pos) == Ok(Lexed(Some(t), next)) && TokensFrom(input, next).Ok?
    ensures TokensFrom(input, pos) == Ok([t] + TokensFrom(input, next).value)
  {
  }

  function Tokenize(input: seq<char>): (r: Result<seq<Token>, LexError>)
    ensures r.Ok? ==> |r.value| <= |input|
    ensures r.Ok? ==> forall i :: 0 <= i < |r.value| ==> r.value[i].Punctuator? || r.value[i].Number?
  {
    TokensFrom(input, 0)
  }

  /** An input of blanks only has no tokens; any other input has a first token or an error. */
  lemma BlankInputHasNoTokens(input: seq<char>)
    ensures Tokenize(input) == Ok([]) <==> forall i :: 0 <= i < |input| ==> IsBlank(input[i])
  {
    var r := LexAt(input, 0);
    if r.Ok? && r.value.token.Some? {
      var next := r.value.next;
      if TokensFrom(input, next).Ok? {
        assert Tokenize(input) == Ok([r.value.token.value] + TokensFrom(input, next).value);
      }
    }
  }

  /** The lexer over a `Peekable` cursor. */
  class JsLexer {
    const input: seq<char>
    var pos: nat

    predicate Valid()
      reads this
    {
      pos <= |input|
    }

    /** `JsLexer::new` */
    constructor(js: seq<char>)
      ensures Valid() && input == js && pos == 0
    {
      input := js;
      pos := 0;
    }

    /** `consume_number`: accumulates `result * 10 + digit` while the next character is a digit. */
    method ConsumeNumber() returns (r: Result<nat, LexError>)
      requires Valid()
      modifies this
      ensures Valid()
      ensures var e := DigitEnd(input, old(pos));
        var v := DigitsValue(input[old(pos)..e]);
        r == (if v > U64_MAX then Err(Overflow) else Ok(v)) && (r.Ok? ==> pos == e)
    {
      ghost var start := pos;
      ghost var e := DigitEnd(input, start);
      var result: nat := 0;
      assert input[start..pos] == [];
      while pos < |input| && IsDigit(input[pos])
        invariant Valid() && start <= pos <= e
        invariant AllDigits(input[start..pos]) && result == DigitsValue(input[start..pos]) <= U64_MAX
        invariant input[start..e][..pos - start] == input[start..pos]
        decreases |input| - pos
      {
        DigitsValueSnoc(input[start..pos], input[pos]);
        assert input[start..pos + 1] == input[start..pos] + [input[pos]];
        result := result * 10 + ((input[pos] as int) - ('0' as int));
        pos := pos + 1;
        if result > U64_MAX {
          assert input[start..e][..pos - start] == input[start..pos];
          DigitsValuePrefix(input[start..e], pos - start);
          return Err(Overflow);
        }
      }
      assert pos == e;
      r := Ok(result);
    }

    /** `next`: skips blanks and yields one token, or nothing at the end of the input. */
    method Next() returns (r: Result<Option<Token>, LexError>)
      requires Valid()
      modifies this
      ensures Valid()
      ensures match LexAt(input, old(pos))
        case Ok(l) => r == Ok(l.token) && pos == l.next
        case Err(e) => r == Err(e)
    {
      if pos >= |input| {
        return Ok(None);
      }
      ghost var start := pos;
      while IsBlank(input[pos])
        invariant Valid() && start <= pos < |input|
        invariant SkipBlanks(input, start) == SkipBlanks(input, pos)
        decreases |input| - pos
      {
        pos := pos + 1;
        if pos >= |input| {
          return Ok(None);
        }
      }
      var c := input[pos];
      if IsPunctuator(c) {
        pos := pos + 1;
        r := Ok(Some(Punctuator(c)));
      } else if IsDigit(c) {
        var n := ConsumeNumber();
        if n.Err? {
          return Err(n.error);
        }
        r := Ok(Some(Number(n.value)));
      } else {
        r := Err(Unsupported(c));
      }
    }
  }
}
