/** The asset symbol carried in a request's `token` field and its
    case-insensitive parse. */
module Token {
  import opened Js

  datatype Symbol = SOL | USDC

  /** The canonical spelling of a symbol. */
  function Name(t: Symbol): string {
    match t
    case SOL => "SOL"
    case USDC => "USDC"
  }

  const LongS: char := '\U{17F}'

  const DotlessI: char := '\U{131}'

  /** `toUpperCase` on one character, for the characters whose upper case is
      a single ASCII letter: 'a' to 'z', LATIN SMALL LETTER LONG S (upper
      case 'S') and LATIN SMALL LETTER DOTLESS I (upper case 'I'). Every
      other character is kept. */
  function UpperChar(c: char): char {
    if 'a' <= c <= 'z' then (c as int - 32) as char
    else if c == LongS then 'S'
    else if c == DotlessI then 'I'
    else c
  }

  /** `String.prototype.toUpperCase`, character by character. */
  function Upper(s: string): (u: string)
    ensures |u| == |s|
    ensures forall i :: 0 <= i < |s| ==> u[i] == UpperChar(s[i])
  {
    if s == [] then [] else [UpperChar(s[0])] + Upper(s[1..])
  }

  /** Upper-casing is idempotent. */
  lemma UpperIdempotent(s: string)
    ensures Upper(Upper(s)) == Upper(s)
  {
  }

  /** `parseTokenSymbol`: absent or empty input gives no symbol; otherwise the
      upper-cased input must spell one of the symbols exactly. */
  function ParseTokenSymbol(raw: Option<string>): (r: Option<Symbol>)
    ensures forall t :: r == Some(t) <==> raw.Some? && Upper(raw.value) == Name(t)
  {
    if raw.None? || raw.value == "" then None
    else
      var normalized := Upper(raw.value);
      if normalized == Name(SOL) then Some(SOL)
      else if normalized == Name(USDC) then Some(USDC)
      else None
  }

  /** Parsing a symbol's own spelling gives that symbol back. */
  lemma ParseName(t: Symbol)
    ensures ParseTokenSymbol(Some(Name(t))) == Some(t)
  {
  }

  /** Parsing is idempotent on its outputs: re-parsing the spelling of a
      parsed symbol yields the same symbol. */
  lemma ParseIdempotent(raw: Option<string>)
    ensures ParseTokenSymbol(raw).Some? ==>
              ParseTokenSymbol(Some(Name(ParseTokenSymbol(raw).value))) == ParseTokenSymbol(raw)
  {
  }

  /** The spellings accepted as SOL, character class by character class. */
  predicate IsSolSpelling(s: string) {
    |s| == 3 && s[0] in ['s', 'S', LongS] && s[1] in ['o', 'O'] && s[2] in ['l', 'L']
  }

  /** The spellings accepted as USDC. */
  predicate IsUsdcSpelling(s: string) {
    |s| == 4 && s[0] in ['u', 'U'] && s[1] in ['s', 'S', LongS] && s[2] in ['d', 'D'] && s[3] in ['c', 'C']
  }

  /** The accepted inputs, stated without upper-casing: a string parses to
      SOL exactly when it is one of the 12 spellings of "sol" (with the long s
      counted as an s), to USDC exactly when it is one of the 24 spellings of
      "usdc", and to nothing otherwise. */
  lemma ParseSpellings(s: string)
    ensures ParseTokenSymbol(Some(s)) == Some(SOL) <==> IsSolSpelling(s)
    ensures ParseTokenSymbol(Some(s)) == Some(USDC) <==> IsUsdcSpelling(s)
    ensures ParseTokenSymbol(Some(s)) == None <==> !IsSolSpelling(s) && !IsUsdcSpelling(s)
  {
  }

  /** The message V8 gives the TypeError raised by `raw.toUpperCase()` when
      `raw` is truthy but not a string. */
  const NotAFunction: string := "raw.toUpperCase is not a function"

  /** `parseTokenSymbol` applied to a request's `token` field, which may hold
      any JSON value: a falsy value gives no symbol, a string is parsed, and any
      other truthy value makes `toUpperCase` throw. */
  function TokenOf(raw: Option<Json>): (r: Attempt<Option<Symbol>>)
    ensures r.Threw? <==> Truthy(raw) && !raw.value.JStr?
    ensures r.Threw? ==> r.thrown == ErrorObject(NotAFunction)
    ensures raw.Some? && raw.value.JStr? ==> r == Returned(ParseTokenSymbol(Some(raw.value.s)))
    ensures !Truthy(raw) ==> r == Returned(None)
  {
    if !Truthy(raw) then Returned(None)
    else
      match raw.value
      case JStr(s) => Returned(ParseTokenSymbol(Some(s)))
      case _ => Threw(ErrorObject(NotAFunction))
  }
}
