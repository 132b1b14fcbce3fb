/**
  The placeholder rewriter: `?` and `?NNN` outside quoted text, comments and
  dollar-quoted bodies become `$N`; everything else is copied.
 */
module Rewrite {
  import opened Basics

  // Scanners, as the number of characters they consume ---------------------------------

  /** What a quoted run consumes after its opening quote; a doubled quote stays inside. */
  function QuotedLen(t: string, quote: char): (n: nat)
    ensures n <= |t|
  {
    if t == [] then 0
    else if t[0] != quote then 1 + QuotedLen(t[1..], quote)
    else if |t| > 1 && t[1] == quote then 2 + QuotedLen(t[2..], quote)
    else 1
  }

  function LineLen(t: string): (n: nat)
    ensures n <= |t| && (t != [] ==> n > 0)
  {
    if t == [] then 0 else if t[0] == '\n' then 1 else 1 + LineLen(t[1..])
  }

  predicate Opens(t: string) {
    |t| >= 2 && t[0] == '/' && t[1] == '*'
  }

  predicate Closes(t: string) {
    |t| >= 2 && t[0] == '*' && t[1] == '/'
  }

  /** What a block comment consumes at a nesting depth. */
  function BlockLen(t: string, depth: int): (n: nat)
    ensures n <= |t| && (t != [] ==> n > 0)
  {
    if |t| < 2 then |t|
    else if Opens(t) then 2 + BlockLen(t[2..], depth + 1)
    else if Closes(t) then (if depth == 1 then 2 else 2 + BlockLen(t[2..], depth - 1))
    else 1 + BlockLen(t[1..], depth)
  }

  predicate Letter(c: char) {
    c == '_' || 'a' <= c <= 'z' || 'A' <= c <= 'Z'
  }

  predicate Digit(c: char) {
    '0' <= c <= '9'
  }

  /** The rest of a dollar-quote tag after its first `$`, up to and including the second. */
  function TagLen(t: string, first: bool): (n: Option<nat>)
    ensures n.Some? ==> 0 < n.value <= |t|
  {
    if t == [] then None
    else if t[0] == '$' then Some(1)
    else if Letter(t[0]) || (Digit(t[0]) && !first) then
      match TagLen(t[1..], false)
      case None => None
      case Some(n) => Some(n + 1)
    else None
  }

  function Find(t: string, tag: string): (k: Option<nat>)
    ensures k.Some? ==> k.value + |tag| <= |t|
  {
    if tag <= t then Some(0)
    else if t == [] then None
    else match Find(t[1..], tag)
      case None => None
      case Some(k) => Some(k + 1)
  }

  function DigitsLen(t: string): (n: nat)
    ensures n <= |t|
  {
    if t == [] || !Digit(t[0]) then 0 else 1 + DigitsLen(t[1..])
  }

  // The lexer ----------------------------------------------------------------------------

  datatype Token = Copied(text: string) | Bare | Numbered(digits: string)

  function TokenText(t: Token): string {
    match t
    case Copied(text) => text
    case Bare => ['?']
    case Numbered(digits) => ['?'] + digits
  }

  /** The length of the token at the front, and whether it is a placeholder. */
  function FrontLen(s: string): (n: nat)
    requires s != []
    ensures 0 < n <= |s|
  {
    var c, rest := s[0], s[1..];
    if c == '\'' || c == '"' then 1 + QuotedLen(rest, c)
    else if c == '-' && rest != [] && rest[0] == '-' then LineLen(s)
    else if Opens(s) then BlockLen(s, 0)
    else if c == '$' && TagLen(rest, true).Some? then
      var n := 1 + TagLen(rest, true).value;
      match Find(s[n..], s[..n])
      case None => |s|
      case Some(k) => n + k + n
    else if c == '?' then 1 + DigitsLen(rest)
    else 1
  }

  function FrontToken(s: string): Token
    requires s != []
  {
    var n := FrontLen(s);
    if s[0] != '?' then Copied(s[..n]) else if n == 1 then Bare else Numbered(s[1..n])
  }

  function Lex(s: string): seq<Token> {
    if s == [] then [] else [FrontToken(s)] + Lex(s[FrontLen(s)..])
  }

  function Text(tokens: seq<Token>): string {
    if tokens == [] then [] else TokenText(tokens[0]) + Text(tokens[1..])
  }

  /** Lexing loses nothing and invents nothing. */
  lemma {:induction false} LexIsLossless(s: string)
    ensures Text(Lex(s)) == s
  {
    if s != [] {
      var n := FrontLen(s);
      LexIsLossless(s[n..]);
      assert s == s[..n] + s[n..];
      assert TokenText(FrontToken(s)) == s[..n] by {
        if s[0] == '?' {
          assert s[..n] == [s[0]] + s[1..n];
        }
      }
      assert Lex(s)[1..] == Lex(s[n..]);
    }
  }

  // Numbers --------------------------------------------------------------------------------

  function DigitValue(c: char): (v: nat)
    requires Digit(c)
    ensures v < 10 && DigitChar(v) == c
  {
    c as int - '0' as int
  }

  predicate AllDigits(s: string) {
    forall i | 0 <= i < |s| :: Digit(s[i])
  }

  function Value(digits: string): nat
    requires AllDigits(digits)
  {
    if digits == [] then 0 else Value(digits[..|digits| - 1]) * 10 + DigitValue(digits[|digits| - 1])
  }

  /** A run of more than nine digits is no parameter number. */
  function Index(digits: string): Option<nat>
    requires AllDigits(digits)
  {
    if |digits| > 9 then None else Some(Value(digits))
  }

  lemma {:induction false} DigitsAreDigits(t: string)
    ensures AllDigits(t[..DigitsLen(t)])
    ensures DigitsLen(t) < |t| ==> !Digit(t[DigitsLen(t)])
  {
    if t != [] && Digit(t[0]) {
      DigitsAreDigits(t[1..]);
      var n := DigitsLen(t);
      assert t[..n] == [t[0]] + t[1..][..n - 1];
    }
  }

  /** Decimal writing is exact: reading the digits back gives the number. */
  lemma {:induction false} DecimalIsExact(n: nat)
    ensures AllDigits(Decimal(n)) && Value(Decimal(n)) == n
    ensures Decimal(n) != [] && (n > 0 ==> Decimal(n)[0] != '0')
  {
    var d := Decimal(n);
    if n < 10 {
      assert d[..0] == [];
    } else {
      DecimalIsExact(n / 10);
      assert d[..|d| - 1] == Decimal(n / 10);
    }
  }

  predicate ValidTokens(tokens: seq<Token>) {
    forall t | t in tokens && t.Numbered? :: AllDigits(t.digits) && t.digits != []
  }

  /** The largest parameter number given out so far, as the rewriter tracks it. */
  function Largest(tokens: seq<Token>): nat
    requires ValidTokens(tokens)
  {
    if tokens == [] then 0 else
      var n := |tokens| - 1;
      var before := Largest(tokens[..n]);
      match tokens[n]
      case Copied(_) => before
      case Bare => before + 1
      case Numbered(digits) =>
        match Index(digits)
        case None => before
        case Some(k) => if k > before then k else before
  }

  /** The number a placeholder binds: its own, or one past the largest before it. */
  function NumberAt(tokens: seq<Token>, i: nat): Option<nat>
    requires ValidTokens(tokens) && i < |tokens|
  {
    match tokens[i]
    case Copied(_) => None
    case Bare => Some(Largest(tokens[..i]) + 1)
    case Numbered(digits) => Index(digits)
  }

  /** The tracked number is the maximum of the numbers bound, and zero before the first. */
  lemma {:induction false} LargestIsMaximum(tokens: seq<Token>)
    requires ValidTokens(tokens)
    ensures forall i | 0 <= i < |tokens| && NumberAt(tokens, i).Some? :: NumberAt(tokens, i).value <= Largest(tokens)
    ensures Largest(tokens) == 0 || exists i :: 0 <= i < |tokens| && NumberAt(tokens, i) == Some(Largest(tokens))
  {
    if tokens != [] {
      var n := |tokens| - 1;
      var before := tokens[..n];
      LargestIsMaximum(before);
      forall i | 0 <= i < n
        ensures NumberAt(tokens, i) == NumberAt(before, i)
      {
        assert tokens[..i] == before[..i];
      }
      if Largest(tokens) != Largest(before) {
        assert NumberAt(tokens, n) == Some(Largest(tokens));
      } else if Largest(before) != 0 {
        var i :| 0 <= i < n && NumberAt(before, i) == Some(Largest(before));
        assert NumberAt(tokens, i) == Some(Largest(tokens));
      }
    }
  }

  /** What a token is written as. */
  function Written(tokens: seq<Token>, i: nat): string
    requires ValidTokens(tokens) && i < |tokens|
  {
    match tokens[i]
    case Copied(text) => text
    case Bare => ['$'] + Decimal(Largest(tokens[..i]) + 1)
    case Numbered(digits) => ['$'] + digits
  }

  /** The rewritten text of the first `n` tokens. */
  function Render(tokens: seq<Token>, n: nat): string
    requires ValidTokens(tokens) && n <= |tokens|
  {
    if n == 0 then [] else Render(tokens, n - 1) + Written(tokens, n - 1)
  }

  lemma {:induction false} LexIsValid(s: string)
    ensures ValidTokens(Lex(s))
  {
    if s != [] {
      LexIsValid(s[FrontLen(s)..]);
      DigitsAreDigits(s[1..]);
      if s[0] == '?' {
        assert s[1..FrontLen(s)] == s[1..][..DigitsLen(s[1..])];
      }
    }
  }

  lemma {:induction false} PlainRender(tokens: seq<Token>, n: nat)
    requires n <= |tokens| && forall t | t in tokens :: t.Copied?
    ensures ValidTokens(tokens) && Render(tokens, n) + Text(tokens[n..]) == Text(tokens)
  {
    if n == 0 {
      assert tokens[0..] == tokens;
    } else {
      PlainRender(tokens, n - 1);
      assert tokens[n - 1] in tokens;
      assert tokens[n - 1..][1..] == tokens[n..];
    }
  }

  /** A query without placeholders comes back unchanged. */
  lemma NoPlaceholderUnchanged(s: string)
    requires forall t | t in Lex(s) :: t.Copied?
    ensures ValidTokens(Lex(s)) && Render(Lex(s), |Lex(s)|) == s
  {
    var tokens := Lex(s);
    PlainRender(tokens, |tokens|);
    assert tokens[|tokens|..] == [];
    LexIsLossless(s);
  }

  lemma {:induction false} WithoutQuestionMark(s: string)
    requires '?' !in s
    ensures forall t | t in Lex(s) :: t.Copied?
  {
    if s != [] {
      assert s[0] in s;
      WithoutQuestionMark(s[FrontLen(s)..]);
    }
  }

  // The scanners as they run -------------------------------------------------------------

  method ScanQuoted(query: string, open: nat, quote: char) returns (end: nat)
    requires open < |query|
    ensures end == open + 1 + QuotedLen(query[open + 1..], quote)
  {
    var i := open + 1;
    while i < |query|
      invariant open < i <= |query|
      invariant QuotedLen(query[open + 1..], quote) == (i - open - 1) + QuotedLen(query[i..], quote)
    {
      assert query[i..][1..] == query[i + 1..];
      if query[i] != quote {
        i := i + 1;
        continue;
      }
      if i + 1 < |query| && query[i + 1] == quote {
        assert query[i..][2..] == query[i + 2..];
        i := i + 2;
        continue;
      }
      return i + 1;
    }
    end := |query|;
  }

  method ScanLineComment(query: string, open: nat) returns (end: nat)
    requires open < |query|
    ensures end == open + LineLen(query[open..])
  {
    var i := open;
    while i < |query|
      invariant open <= i <= |query|
      invariant LineLen(query[open..]) == (i - open) + LineLen(query[i..])
    {
      assert query[i..][1..] == query[i + 1..];
      if query[i] == '\n' {
        return i + 1;
      }
      i := i + 1;
    }
    end := |query|;
  }

  lemma BlockStep(query: string, i: nat, depth: int)
    requires i + 1 < |query|
    ensures BlockLen(query[i..], depth) ==
            if query[i] == '/' && query[i + 1] == '*' then 2 + BlockLen(query[i + 2..], depth + 1)
            else if query[i] == '*' && query[i + 1] == '/' then
              (if depth == 1 then 2 else 2 + BlockLen(query[i + 2..], depth - 1))
            else 1 + BlockLen(query[i + 1..], depth)
  {
    assert query[i..][1..] == query[i + 1..] && query[i..][2..] == query[i + 2..];
  }

  lemma BlockEnds(t: string, depth: int)
    requires |t| < 2
    ensures BlockLen(t, depth) == |t|
  {
  }

  method ScanBlockComment(query: string, open: nat) returns (end: nat)
    requires open < |query|
    ensures end == open + BlockLen(query[open..], 0)
  {
    hide BlockLen;
    var i, depth := open, 0;
    while i < |query| - 1
      invariant open <= i <= |query|
      invariant BlockLen(query[open..], 0) == (i - open) + BlockLen(query[i..], depth)
    {
      BlockStep(query, i, depth);
      if query[i] == '/' && query[i + 1] == '*' {
        depth := depth + 1;
        i := i + 2;
      } else if query[i] == '*' && query[i + 1] == '/' {
        depth := depth - 1;
        if depth == 0 {
          return i + 2;
        }
        i := i + 2;
      } else {
        i := i + 1;
      }
    }
    BlockEnds(query[i..], depth);
    end := |query|;
  }

  method DollarTag(query: string, i: nat) returns (n: Option<nat>)
    requires i < |query| && query[i] == '$'
    ensures n == match TagLen(query[i + 1..], true) case None => None case Some(k) => Some(k + 1)
  {
    var j := i + 1;
    while j < |query|
      invariant i < j <= |query|
      invariant TagLen(query[i + 1..], true) ==
                match TagLen(query[j..], j == i + 1) case None => None case Some(k) => Some(k + (j - i - 1))
    {
      assert query[j..][1..] == query[j + 1..];
      var c := query[j];
      if c == '$' {
        return Some(j + 1 - i);
      }
      if Letter(c) || (Digit(c) && j > i + 1) {
        j := j + 1;
        continue;
      }
      return None;
    }
    n := None;
  }

  method ScanDollarQuoted(query: string, open: nat, n: nat) returns (end: nat)
    requires open + n <= |query| && n > 0
    ensures end == match Find(query[open + n..], query[open..open + n]) case None => |query| case Some(k) =>
            open + n + k + n
  {
    hide Find;
    var tag := query[open..open + n];
    var i := open + n;
    while i + n <= |query|
      invariant open + n <= i <= |query|
      invariant Find(query[open + n..], tag) ==
                match Find(query[i..], tag) case None => None case Some(k) => Some(k + (i - open - n))
    {
      FindStep(query, i, tag);
      if query[i..i + n] == tag {
        return i + n;
      }
      i := i + 1;
    }
    TooShort(query[i..], tag);
    end := |query|;
  }

  lemma FindStep(query: string, i: nat, tag: string)
    requires tag != [] && i + |tag| <= |query|
    ensures Find(query[i..], tag) ==
            if query[i..i + |tag|] == tag then Some(0)
            else match Find(query[i + 1..], tag) case None => None case Some(k) => Some(k + 1)
  {
    assert query[i..][..|tag|] == query[i..i + |tag|];
    assert query[i..][1..] == query[i + 1..];
  }

  lemma {:induction false} TooShort(t: string, tag: string)
    requires |t| < |tag|
    ensures Find(t, tag).None?
  {
    if t != [] {
      TooShort(t[1..], tag);
    }
  }

  // Digits as they run ------------------------------------------------------------------

  method ParseIndex(digits: string) returns (n: Option<nat>)
    requires AllDigits(digits)
    ensures n == Index(digits)
  {
    if |digits| > 9 {
      return None;
    }
    var v := 0;
    for i := 0 to |digits|
      invariant v == Value(digits[..i])
    {
      assert digits[..i + 1][..i] == digits[..i];
      v := v * 10 + DigitValue(digits[i]);
    }
    assert digits[..|digits|] == digits;
    n := Some(v);
  }

  function Pow10(k: nat): nat {
    if k == 0 then 1 else 10 * Pow10(k - 1)
  }

  /** The digits of a number, nothing for zero. */
  function Digits(n: nat): string {
    if n == 0 then [] else Digits(n / 10) + [DigitChar(n % 10)]
  }

  lemma {:induction false} DigitsAreDecimal(n: nat)
    requires n > 0
    ensures Digits(n) == Decimal(n)
  {
    if n >= 10 {
      DigitsAreDecimal(n / 10);
    } else {
      assert Digits(n / 10) == [];
    }
  }

  lemma {:induction false} DigitsFit(n: nat, k: nat)
    requires n < Pow10(k)
    ensures |Digits(n)| <= k
  {
    if n > 0 {
      DigitsFit(n / 10, k - 1);
    }
  }

  /** The digit buffer is filled from the back; twenty places hold every 64-bit number. */
  method Itoa(n: nat) returns (text: string)
    requires n < Pow10(20)
    ensures text == Decimal(n)
  {
    if n < 10 {
      return [DigitChar(n)];
    }
    var buf := new char[20];
    var pos, rest := 20, n;
    DigitsFit(n, 20);
    while rest > 0
      invariant 0 <= pos <= 20 && |Digits(rest)| <= pos
      invariant Digits(n) == Digits(rest) + buf[pos..]
    {
      pos := pos - 1;
      buf[pos] := DigitChar(rest % 10);
      rest := rest / 10;
    }
    DigitsAreDecimal(n);
    text := buf[pos..];
  }

  // The loop ---------------------------------------------------------------------------

  method ScanDigits(query: string, from: nat) returns (end: nat)
    requires from <= |query|
    ensures end == from + DigitsLen(query[from..])
  {
    end := from;
    while end < |query| && Digit(query[end])
      invariant from <= end <= |query|
      invariant DigitsLen(query[from..]) == (end - from) + DigitsLen(query[end..])
    {
      assert query[end..][1..] == query[end + 1..];
      end := end + 1;
    }
  }

  /** Where the token at position `i` ends. */
  method ScanToken(query: string, i: nat) returns (end: nat)
    requires i < |query|
    ensures end == i + FrontLen(query[i..])
  {
    hide QuotedLen, LineLen, BlockLen, TagLen, Find, DigitsLen;
    var c := query[i];
    ghost var s := query[i..];
    assert s[1..] == query[i + 1..];
    end := i + 1;
    if c == '\'' || c == '"' {
      end := ScanQuoted(query, i, c);
    } else if c == '-' && i + 1 < |query| && query[i + 1] == '-' {
      end := ScanLineComment(query, i);
    } else if c == '/' && i + 1 < |query| && query[i + 1] == '*' {
      end := ScanBlockComment(query, i);
    } else if c == '$' {
      var tag := DollarTag(query, i);
      if tag.Some? {
        var n := tag.value;
        assert s[n..] == query[i + n..] && s[..n] == query[i..i + n];
        end := ScanDollarQuoted(query, i, n);
      }
    } else if c == '?' {
      end := ScanDigits(query, i + 1);
    }
  }

  lemma LexSplit(query: string, i: nat, tokens: seq<Token>, k: nat)
    requires i < |query| && k <= |tokens| && Lex(query[i..]) == tokens[k..]
    ensures var end := i + FrontLen(query[i..]);
            && k < |tokens| && Lex(query[end..]) == tokens[k + 1..]
            && tokens[k] == if query[i] != '?' then Copied(query[i..end]) else if end == i + 1 then Bare
              else Numbered(query[i + 1..end])
  {
    var s := query[i..];
    var n := FrontLen(s);
    assert s[..n] == query[i..i + n] && s[1..n] == query[i + 1..i + n];
    assert s[n..] == query[i + n..];
    assert tokens[k..][1..] == tokens[k + 1..] && Lex(s)[1..] == Lex(s[n..]);
    assert tokens[k..][0] == tokens[k];
  }

  /** The tracked number stays small enough for the digit buffer. */
  lemma {:induction false} LargestIsSmall(tokens: seq<Token>)
    requires ValidTokens(tokens)
    ensures Largest(tokens) <= 999_999_999 + |tokens|
  {
    if tokens != [] {
      var n := |tokens| - 1;
      LargestIsSmall(tokens[..n]);
      if tokens[n].Numbered? && |tokens[n].digits| <= 9 {
        assert tokens[n] in tokens;
        ValueIsSmall(tokens[n].digits);
      }
    }
  }

  lemma {:induction false} ValueIsSmall(digits: string)
    requires AllDigits(digits) && |digits| <= 9
    ensures Value(digits) < Pow10(|digits|) <= 1_000_000_000
  {
    if digits != [] {
      ValueIsSmall(digits[..|digits| - 1]);
    }
    assert Pow10(0) == 1 && Pow10(1) == 10 && Pow10(2) == 100 && Pow10(3) == 1000 && Pow10(4) == 10000;
    assert Pow10(5) == 100000 && Pow10(6) == 1000000 && Pow10(7) == 10000000 && Pow10(8) == 100000000;
  }

  lemma {:induction false} LexIsShort(s: string)
    ensures |Lex(s)| <= |s|
  {
    if s != [] {
      LexIsShort(s[FrontLen(s)..]);
    }
  }

  lemma NumbersFit(tokens: seq<Token>, n: nat)
    requires n <= 1_000_000_000 + |tokens| && |tokens| <= INT64_MAX
    ensures n < Pow10(20)
  {
    assert Pow10(10) == 10_000_000_000 by { Pow10Ten(); }
    assert Pow10(20) == 100_000_000_000_000_000_000 by { Pow10Twenty(); }
  }

  lemma Pow10Ten()
    ensures Pow10(10) == 10_000_000_000
  {
    assert Pow10(2) == 100;
    assert Pow10(4) == 10000;
    assert Pow10(6) == 1000000;
    assert Pow10(8) == 100000000;
  }

  lemma Pow10Twenty()
    ensures Pow10(20) == 100_000_000_000_000_000_000
  {
    Pow10Ten();
    assert Pow10(12) == 1_000_000_000_000;
    assert Pow10(14) == 100_000_000_000_000;
    assert Pow10(16) == 10_000_000_000_000_000;
    assert Pow10(18) == 1_000_000_000_000_000_000;
  }

  /** The rewritten form of a query. */
  function Rewritten(query: string): string {
    LexIsValid(query);
    Render(Lex(query), |Lex(query)|)
  }

  /** Writing one token and keeping track of the largest number. */
  method WriteToken(query: string, i: nat, end: nat, largest: nat, ghost tokens: seq<Token>, ghost k: nat)
    returns (text: string, next: nat)
    requires ValidTokens(tokens) && k < |tokens| <= INT64_MAX && i < end <= |query| && largest == Largest(tokens[..k])
    requires tokens[k] == if query[i] != '?' then Copied(query[i..end]) else if end == i + 1 then Bare
             else Numbered(query[i + 1..end])
    ensures text == Written(tokens, k) && next == Largest(tokens[..k + 1])
  {
    assert tokens[..k + 1][..k] == tokens[..k] && tokens[k] in tokens;
    next := largest;
    if query[i] != '?' {
      return query[i..end], next;
    }
    if end == i + 1 {
      LargestIsSmall(tokens[..k]);
      NumbersFit(tokens, largest + 1);
      next := largest + 1;
      text := Itoa(next);
      text := ['$'] + text;
      return;
    }
    var digits := query[i + 1..end];
    text := ['$'] + digits;
    var n := ParseIndex(digits);
    if n.Some? && n.value > largest {
      next := n.value;
    }
  }

  /** A Go string is never longer than a 64-bit integer can count. */
  method RewriteQuery(query: string) returns (out: string)
    requires |query| <= INT64_MAX
    ensures out == Rewritten(query)
  {
    hide Largest, FrontLen, FrontToken, ValidTokens, Written;
    if '?' !in query {
      WithoutQuestionMark(query);
      NoPlaceholderUnchanged(query);
      return query;
    }
    out := [];
    ghost var tokens := Lex(query);
    ghost var k := 0;
    LexIsValid(query);
    LexIsShort(query);
    var largest, i := 0, 0;
    assert query[0..] == query && tokens[0..] == tokens;
    assert Largest(tokens[..0]) == 0 by { LargestOfNone(tokens[..0]); }
    while i < |query|
      invariant 0 <= i <= |query| && 0 <= k <= |tokens| && ValidTokens(tokens) && ValidTokens(tokens[..k])
      invariant Lex(query[i..]) == tokens[k..]
      invariant out == Render(tokens, k) && largest == Largest(tokens[..k])
    {
      LexSplit(query, i, tokens, k);
      PrefixIsValid(tokens, k + 1);
      var end := ScanToken(query, i);
      FrontIsPositive(query[i..]);
      var text;
      text, largest := WriteToken(query, i, end, largest, tokens, k);
      out := out + text;
      i, k := end, k + 1;
    }
    assert query[i..] == [];
  }

  lemma LargestOfNone(tokens: seq<Token>)
    requires tokens == []
    ensures ValidTokens(tokens) && Largest(tokens) == 0
  {
  }

  lemma PrefixIsValid(tokens: seq<Token>, k: nat)
    requires ValidTokens(tokens) && k <= |tokens|
    ensures ValidTokens(tokens[..k])
  {
  }

  lemma FrontIsPositive(s: string)
    requires s != []
    ensures 0 < FrontLen(s) <= |s|
  {
  }
}
