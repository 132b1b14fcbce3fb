/**
  Queries built from their parts, and the proof that the rewriter's scanners find
  exactly those parts again: what is quoted, commented or dollar-quoted is skipped
  whole, whatever it contains, and every placeholder outside is seen. Every string is
  such a query, if need be one that ends inside a quote, a comment or a body.
 */
module Queries {
  import opened Basics
  import opened Rewrite

  /** The inside of a block comment, which may hold comments. */
  datatype Item = Ch(c: char) | Nested(items: seq<Item>)

  datatype Piece =
    | Plain(c: char)
    | QuotedText(quote: char, body: string)
    | LineComment(body: string)
    | BlockComment(items: seq<Item>)
    | DollarText(name: string, body: string)
    | Anonymous
    | Indexed(digits: string)

  /** What may be left open where a query ends. Each level of an open comment holds comments that were closed. */
  datatype Tail =
    | Nothing
    | OpenQuote(quote: char, body: string)
    | OpenLine(body: string)
    | OpenBlock(levels: seq<seq<Item>>)
    | OpenDollar(name: string, body: string)

  const OPEN: string := ['/', '*']
  const CLOSE: string := ['*', '/']

  function PrintItem(item: Item): string
    decreases item
  {
    match item
    case Ch(c) => [c]
    case Nested(items) => OPEN + PrintItems(items) + CLOSE
  }

  function PrintItems(items: seq<Item>): string
    decreases items
  {
    if items == [] then [] else PrintItem(items[0]) + PrintItems(items[1..])
  }

  /** SQL writes a quote inside a quoted run twice. */
  function Doubled(body: string, quote: char): string {
    if body == [] then [] else
      (if body[0] == quote then [quote, quote] else [body[0]]) + Doubled(body[1..], quote)
  }

  function Tag(name: string): string {
    ['$'] + name + ['$']
  }

  function Print(p: Piece): string {
    match p
    case Plain(c) => [c]
    case QuotedText(quote, body) => [quote] + Doubled(body, quote) + [quote]
    case LineComment(body) => ['-', '-'] + body + ['\n']
    case BlockComment(items) => OPEN + PrintItems(items) + CLOSE
    case DollarText(name, body) => Tag(name) + body + Tag(name)
    case Anonymous => ['?']
    case Indexed(digits) => ['?'] + digits
  }

  function PrintLevels(levels: seq<seq<Item>>): string {
    if levels == [] then [] else OPEN + PrintItems(levels[0]) + PrintLevels(levels[1..])
  }

  function PrintTail(tail: Tail): string {
    match tail
    case Nothing => []
    case OpenQuote(quote, body) => [quote] + Doubled(body, quote)
    case OpenLine(body) => ['-', '-'] + body
    case OpenBlock(levels) => PrintLevels(levels)
    case OpenDollar(name, body) => Tag(name) + body
  }

  function PrintAll(pieces: seq<Piece>): string {
    if pieces == [] then [] else Print(pieces[0]) + PrintAll(pieces[1..])
  }

  predicate StartsWith(t: string, c: char) {
    t != [] && t[0] == c
  }

  /** No character of the comment text pairs up with its successor into a delimiter. */
  predicate Clean(items: seq<Item>, after: string)
    decreases items
  {
    items == [] ||
    (var rest := PrintItems(items[1..]) + after;
     && CleanItem(items[0], rest) && Clean(items[1..], after))
  }

  predicate CleanItem(item: Item, rest: string)
    decreases item
  {
    match item
    case Ch(c) => !(c == '/' && StartsWith(rest, '*')) && !(c == '*' && StartsWith(rest, '/'))
    case Nested(items) => Clean(items, CLOSE)
  }

  predicate Name(name: string) {
    && (forall i | 0 <= i < |name| :: Letter(name[i]) || Digit(name[i]))
    && (name != [] ==> Letter(name[0]))
  }

  /** What keeps a piece apart from the text that follows it. */
  predicate Fits(p: Piece, rest: string) {
    match p
    case Plain(c) =>
      && c != '\'' && c != '"' && c != '?'
      && !(c == '-' && StartsWith(rest, '-')) && !(c == '/' && StartsWith(rest, '*'))
      && !(c == '$' && TagLen(rest, true).Some?)
    case QuotedText(quote, body) => (quote == '\'' || quote == '"') && !StartsWith(rest, quote)
    case LineComment(body) => '\n' !in body
    case BlockComment(items) => Clean(items, CLOSE)
    case DollarText(name, body) => Name(name) && forall k | 0 <= k < |body| :: !(Tag(name) <= (body + Tag(name))[k..])
    case Anonymous => rest == [] || !Digit(rest[0])
    case Indexed(digits) => digits != [] && AllDigits(digits) && (rest == [] || !Digit(rest[0]))
  }

  predicate CleanLevels(levels: seq<seq<Item>>) {
    levels == [] || (Clean(levels[0], PrintLevels(levels[1..])) && CleanLevels(levels[1..]))
  }

  /** What makes a tail stay open up to its end. */
  predicate FitsTail(tail: Tail) {
    match tail
    case Nothing => true
    case OpenQuote(quote, _) => quote == '\'' || quote == '"'
    case OpenLine(body) => '\n' !in body
    case OpenBlock(levels) => levels != [] && CleanLevels(levels)
    case OpenDollar(name, body) => Name(name) && forall k | 0 <= k <= |body| :: !(Tag(name) <= body[k..])
  }

  predicate AllFit(pieces: seq<Piece>, after: string) {
    pieces == [] || (Fits(pieces[0], PrintAll(pieces[1..]) + after) && AllFit(pieces[1..], after))
  }

  function TokenOf(p: Piece): Token {
    match p
    case Anonymous => Bare
    case Indexed(digits) => Numbered(digits)
    case _ => Copied(Print(p))
  }

  function TokensOf(pieces: seq<Piece>): (tokens: seq<Token>)
    ensures |tokens| == |pieces| && forall i | 0 <= i < |pieces| :: tokens[i] == TokenOf(pieces[i])
  {
    if pieces == [] then [] else [TokenOf(pieces[0])] + TokensOf(pieces[1..])
  }

  // Each kind of piece is skipped whole ----------------------------------------------------

  lemma {:induction false} QuotedIsSkipped(body: string, quote: char, rest: string)
    requires !StartsWith(rest, quote)
    ensures QuotedLen(Doubled(body, quote) + ([quote] + rest), quote) == |Doubled(body, quote)| + 1
  {
    var tail := [quote] + rest;
    var t := Doubled(body, quote) + tail;
    if body == [] {
      assert t == tail;
    } else {
      QuotedIsSkipped(body[1..], quote, rest);
      var inner := Doubled(body[1..], quote) + tail;
      if body[0] == quote {
        assert t == [quote, quote] + inner;
        assert t[2..] == inner;
      } else {
        assert t == [body[0]] + inner;
        assert t[1..] == inner;
      }
    }
  }

  lemma {:induction false} LineIsSkipped(body: string, rest: string)
    requires '\n' !in body
    ensures LineLen(body + (['\n'] + rest)) == |body| + 1
  {
    var t := body + (['\n'] + rest);
    if body != [] {
      LineIsSkipped(body[1..], rest);
      assert t[1..] == body[1..] + (['\n'] + rest);
      assert t[0] == body[0] && body[0] in body;
    }
  }

  lemma {:induction false} ItemsAreSkipped(items: seq<Item>, after: string, depth: int)
    requires depth >= 1 && Clean(items, after)
    ensures BlockLen(PrintItems(items) + after, depth) == |PrintItems(items)| + BlockLen(after, depth)
    decreases items
  {
    hide BlockLen, PrintItem;
    if items == [] {
      assert PrintItems(items) + after == after;
    } else {
      var rest := PrintItems(items[1..]) + after;
      ItemsAreSkipped(items[1..], after, depth);
      ItemIsSkipped(items[0], rest, depth);
      assert PrintItems(items) + after == PrintItem(items[0]) + rest;
    }
  }

  lemma {:induction false} ItemIsSkipped(item: Item, rest: string, depth: int)
    requires depth >= 1 && CleanItem(item, rest)
    ensures BlockLen(PrintItem(item) + rest, depth) == |PrintItem(item)| + BlockLen(rest, depth)
    decreases item
  {
    hide BlockLen;
    match item
    case Ch(c) => CharIsSkipped(c, rest, depth);
    case Nested(items) =>
      var inner := PrintItems(items);
      CleanAnywhere(items, CLOSE, CLOSE + rest);
      ItemsAreSkipped(items, CLOSE + rest, depth + 1);
      OpenIsSkipped(inner + (CLOSE + rest), depth);
      CloseIsSkipped(rest, depth);
      assert PrintItem(item) + rest == OPEN + (inner + (CLOSE + rest));
  }

  lemma CharIsSkipped(c: char, rest: string, depth: int)
    requires CleanItem(Ch(c), rest)
    ensures BlockLen([c] + rest, depth) == 1 + BlockLen(rest, depth)
  {
    assert ([c] + rest)[1..] == rest;
  }

  lemma OpenIsSkipped(t: string, depth: int)
    ensures BlockLen(OPEN + t, depth) == 2 + BlockLen(t, depth + 1)
  {
    assert (OPEN + t)[2..] == t;
  }

  lemma CloseIsSkipped(t: string, depth: int)
    requires depth >= 1
    ensures BlockLen(CLOSE + t, depth + 1) == 2 + BlockLen(t, depth)
  {
    assert (CLOSE + t)[2..] == t;
  }

  /** Only the first character after the comment text matters. */
  lemma {:induction false} CleanAnywhere(items: seq<Item>, after: string, other: string)
    requires Clean(items, after) && after != [] && other != [] && after[0] == other[0]
    ensures Clean(items, other)
    decreases |items|
  {
    if items != [] {
      CleanAnywhere(items[1..], after, other);
      var p := PrintItems(items[1..]);
      assert p == [] ==> (p + after)[0] == after[0] && (p + other)[0] == other[0];
      assert p != [] ==> (p + after)[0] == p[0] && (p + other)[0] == p[0];
    }
  }

  lemma {:induction false} TagIsFound(name: string, rest: string, first: bool)
    requires forall i | 0 <= i < |name| :: Letter(name[i]) || Digit(name[i])
    requires first && name != [] ==> Letter(name[0])
    ensures TagLen(name + (['$'] + rest), first) == Some(|name| + 1)
  {
    var t := name + (['$'] + rest);
    if name != [] {
      TagIsFound(name[1..], rest, false);
      assert t[1..] == name[1..] + (['$'] + rest);
    }
  }

  lemma {:induction false} FirstOccurrence(body: string, tag: string, rest: string)
    requires tag != [] && forall k | 0 <= k < |body| :: !(tag <= (body + tag)[k..])
    ensures Find(body + tag + rest, tag) == Some(|body|)
  {
    var t := body + tag + rest;
    if body == [] {
      assert t == tag + rest;
    } else {
      assert !(tag <= t) by { NotInFront(body, tag, rest); }
      assert t[1..] == body[1..] + tag + rest;
      forall k | 0 <= k < |body[1..]|
        ensures !(tag <= (body[1..] + tag)[k..])
      {
        assert (body[1..] + tag)[k..] == (body + tag)[k + 1..];
      }
      FirstOccurrence(body[1..], tag, rest);
    }
  }

  lemma NotInFront(body: string, tag: string, rest: string)
    requires body != [] && !(tag <= (body + tag)[0..])
    ensures !(tag <= body + tag + rest)
  {
    assert (body + tag + rest)[..|tag|] == (body + tag)[0..][..|tag|];
  }

  lemma {:induction false} DigitsAreFound(digits: string, rest: string)
    requires AllDigits(digits) && (rest == [] || !Digit(rest[0]))
    ensures DigitsLen(digits + rest) == |digits|
  {
    if digits == [] {
      assert digits + rest == rest;
    } else {
      DigitsAreFound(digits[1..], rest);
      assert (digits + rest)[1..] == digits[1..] + rest;
    }
  }

  lemma QuotedFront(quote: char, body: string, rest: string)
    requires Fits(QuotedText(quote, body), rest)
    ensures FrontLen(Print(QuotedText(quote, body)) + rest) == |Print(QuotedText(quote, body))|
  {
    var s := Print(QuotedText(quote, body)) + rest;
    assert s[1..] == Doubled(body, quote) + ([quote] + rest);
    QuotedIsSkipped(body, quote, rest);
  }

  lemma LineFront(body: string, rest: string)
    requires '\n' !in body
    ensures FrontLen(Print(LineComment(body)) + rest) == |Print(LineComment(body))|
  {
    var s := Print(LineComment(body)) + rest;
    var dashes := ['-', '-'];
    assert s == (dashes + body) + (['\n'] + rest);
    LineIsSkipped(dashes + body, rest);
    assert s[1..][0] == '-';
  }

  lemma BlockFront(items: seq<Item>, rest: string)
    requires Clean(items, CLOSE)
    ensures FrontLen(Print(BlockComment(items)) + rest) == |Print(BlockComment(items))|
  {
    hide Clean, PrintItems;
    var s := Print(BlockComment(items)) + rest;
    var inner := PrintItems(items);
    CleanAnywhere(items, CLOSE, CLOSE + rest);
    ItemsAreSkipped(items, CLOSE + rest, 1);
    assert s == OPEN + (inner + (CLOSE + rest));
    assert s[2..] == inner + (CLOSE + rest);
    assert BlockLen(s, 0) == 2 + BlockLen(s[2..], 1);
    assert BlockLen(CLOSE + rest, 1) == 2;
  }

  lemma DollarFront(name: string, body: string, rest: string)
    requires Fits(DollarText(name, body), rest)
    ensures FrontLen(Print(DollarText(name, body)) + rest) == |Print(DollarText(name, body))|
  {
    hide Find, TagLen;
    var s := Print(DollarText(name, body)) + rest;
    var tag := Tag(name);
    var n := |tag|;
    assert s == tag + (body + tag + rest);
    assert s[1..] == name + (['$'] + (body + tag + rest));
    TagIsFound(name, body + tag + rest, true);
    FirstOccurrence(body, tag, rest);
    assert s[..n] == tag && s[n..] == body + tag + rest;
  }

  lemma PlaceholderFront(p: Piece, rest: string)
    requires Fits(p, rest) && (p.Anonymous? || p.Indexed?)
    ensures FrontLen(Print(p) + rest) == |Print(p)|
  {
    var digits := if p.Anonymous? then [] else p.digits;
    DigitsAreFound(digits, rest);
    assert (Print(p) + rest)[1..] == digits + rest;
  }

  lemma PlainFront(c: char, rest: string)
    requires Fits(Plain(c), rest)
    ensures FrontLen(Print(Plain(c)) + rest) == 1
  {
    assert (Print(Plain(c)) + rest)[1..] == rest;
  }

  /** The token at the front of a printed piece is that piece, whole. */
  lemma FrontIsPiece(p: Piece, rest: string)
    requires Fits(p, rest)
    ensures FrontLen(Print(p) + rest) == |Print(p)| && FrontToken(Print(p) + rest) == TokenOf(p)
  {
    hide FrontLen, Fits;
    match p {
      case Plain(c) => PlainFront(c, rest);
      case QuotedText(quote, body) => QuotedFront(quote, body, rest);
      case LineComment(body) => LineFront(body, rest) by { FitsLine(body, rest); }
      case BlockComment(items) => BlockFront(items, rest) by { FitsBlock(items, rest); }
      case DollarText(name, body) => DollarFront(name, body, rest);
      case Anonymous => PlaceholderFront(p, rest);
      case Indexed(_) => PlaceholderFront(p, rest);
    }
    FrontChar(p, rest);
    assert (Print(p) + rest)[..|Print(p)|] == Print(p);
    if p.Indexed? {
      assert (Print(p) + rest)[1..|Print(p)|] == p.digits;
    }
  }

  lemma FitsLine(body: string, rest: string)
    requires Fits(LineComment(body), rest)
    ensures '\n' !in body
  {
  }

  lemma FitsBlock(items: seq<Item>, rest: string)
    requires Fits(BlockComment(items), rest)
    ensures Clean(items, CLOSE)
  {
  }

  lemma FrontChar(p: Piece, rest: string)
    requires Fits(p, rest)
    ensures (Print(p) + rest)[0] == '?' <==> p.Anonymous? || p.Indexed?
    ensures p.Indexed? ==> |Print(p)| > 1
  {
    hide Clean, PrintItems;
  }

  // A tail is skipped up to the end ---------------------------------------------------------

  lemma {:induction false} OpenQuoteIsSkipped(body: string, quote: char)
    ensures QuotedLen(Doubled(body, quote), quote) == |Doubled(body, quote)|
  {
    var t := Doubled(body, quote);
    if body != [] {
      OpenQuoteIsSkipped(body[1..], quote);
      assert t[if body[0] == quote then 2 else 1..] == Doubled(body[1..], quote);
    }
  }

  lemma {:induction false} OpenLineIsSkipped(body: string)
    requires '\n' !in body
    ensures LineLen(body) == |body|
  {
    if body != [] {
      OpenLineIsSkipped(body[1..]);
    }
  }

  lemma {:induction false} LevelsAreSkipped(levels: seq<seq<Item>>, depth: int)
    requires depth >= 0 && CleanLevels(levels)
    ensures BlockLen(PrintLevels(levels), depth) == |PrintLevels(levels)|
  {
    hide Clean, PrintItems;
    if levels != [] {
      var deeper := PrintLevels(levels[1..]);
      LevelsAreSkipped(levels[1..], depth + 1);
      ItemsAreSkipped(levels[0], deeper, depth + 1);
      var t := PrintLevels(levels);
      assert t == OPEN + (PrintItems(levels[0]) + deeper);
      assert t[2..] == PrintItems(levels[0]) + deeper;
    }
  }

  lemma {:induction false} NoOccurrence(body: string, tag: string)
    requires tag != [] && forall k | 0 <= k <= |body| :: !(tag <= body[k..])
    ensures Find(body, tag).None?
  {
    assert body[0..] == body;
    if body != [] {
      forall k | 0 <= k <= |body[1..]|
        ensures !(tag <= body[1..][k..])
      {
        assert body[1..][k..] == body[k + 1..];
      }
      NoOccurrence(body[1..], tag);
    }
  }

  lemma OpenDollarFront(name: string, body: string)
    requires FitsTail(OpenDollar(name, body))
    ensures FrontLen(Tag(name) + body) == |Tag(name) + body|
  {
    hide Find, TagLen;
    var tag, s := Tag(name), Tag(name) + body;
    assert s[1..] == name + (['$'] + body);
    TagIsFound(name, body, true);
    NoOccurrence(body, tag);
    assert s[..|tag|] == tag && s[|tag|..] == body;
  }

  lemma OpenLineFront(body: string)
    requires '\n' !in body
    ensures FrontLen(['-', '-'] + body) == |['-', '-'] + body|
  {
    OpenLineIsSkipped(['-', '-'] + body);
    assert (['-', '-'] + body)[1..][0] == '-';
  }

  lemma OpenBlockFront(levels: seq<seq<Item>>)
    requires levels != [] && CleanLevels(levels)
    ensures FrontLen(PrintLevels(levels)) == |PrintLevels(levels)| && PrintLevels(levels)[0] == '/'
  {
    hide CleanLevels, PrintItems;
    LevelsAreSkipped(levels, 0);
    assert Opens(PrintLevels(levels));
  }

  lemma OpenQuoteFront(quote: char, body: string)
    requires quote == '\'' || quote == '"'
    ensures FrontLen([quote] + Doubled(body, quote)) == |[quote] + Doubled(body, quote)|
  {
    OpenQuoteIsSkipped(body, quote);
    assert ([quote] + Doubled(body, quote))[1..] == Doubled(body, quote);
  }

  function TailTokens(tail: Tail): seq<Token> {
    if tail.Nothing? then [] else [Copied(PrintTail(tail))]
  }

  lemma TailIsOneToken(tail: Tail)
    requires FitsTail(tail)
    ensures Lex(PrintTail(tail)) == TailTokens(tail)
  {
    hide FrontLen;
    var s := PrintTail(tail);
    match tail {
      case Nothing =>
      case OpenQuote(quote, body) => OpenQuoteFront(quote, body);
      case OpenLine(body) => OpenLineFront(body);
      case OpenBlock(levels) => OpenBlockFront(levels);
      case OpenDollar(name, body) => OpenDollarFront(name, body);
    }
    if s != [] {
      assert s[..|s|] == s && s[|s|..] == [];
    }
  }

  lemma LexFront(p: Piece, rest: string)
    requires Fits(p, rest)
    ensures Lex(Print(p) + rest) == [TokenOf(p)] + Lex(rest)
  {
    hide FrontLen, FrontToken, Fits, Print, TokenOf;
    FrontIsPiece(p, rest);
    PrintsSomething(p);
    assert (Print(p) + rest)[|Print(p)|..] == rest;
  }

  /** Lexing undoes printing. */
  lemma {:induction false} LexFindsPieces(pieces: seq<Piece>, tail: Tail)
    requires AllFit(pieces, PrintTail(tail)) && FitsTail(tail)
    ensures Lex(PrintAll(pieces) + PrintTail(tail)) == TokensOf(pieces) + TailTokens(tail)
  {
    hide Lex, Print, TokenOf, Fits, FitsTail, PrintTail, TailTokens;
    var after := PrintTail(tail);
    if pieces == [] {
      TailIsOneToken(tail);
      assert [] + after == after && TokensOf(pieces) + TailTokens(tail) == TailTokens(tail);
    } else {
      var rest := PrintAll(pieces[1..]) + after;
      LexFront(pieces[0], rest);
      LexFindsPieces(pieces[1..], tail);
      assert PrintAll(pieces) + after == Print(pieces[0]) + rest;
      assert TokensOf(pieces) + TailTokens(tail) == [TokenOf(pieces[0])] + (TokensOf(pieces[1..]) + TailTokens(tail));
    }
  }

  lemma PrintsSomething(p: Piece)
    ensures Print(p) != []
  {
  }

  predicate GoodIndices(pieces: seq<Piece>) {
    forall p | p in pieces && p.Indexed? :: AllDigits(p.digits) && p.digits != []
  }

  /** The number each placeholder binds, counted over the pieces alone. */
  function BoundBefore(pieces: seq<Piece>): nat
    requires GoodIndices(pieces)
  {
    if pieces == [] then 0 else
      var n := |pieces| - 1;
      var before := BoundBefore(pieces[..n]);
      match pieces[n]
      case Anonymous => before + 1
      case Indexed(digits) => if |digits| <= 9 && Value(digits) > before then Value(digits) else before
      case _ => before
  }

  /** How a piece is to be written: its own text, or a dollar sign and the number it binds. */
  function Rebound(pieces: seq<Piece>, i: nat): string
    requires i < |pieces| && GoodIndices(pieces)
  {
    match pieces[i]
    case Anonymous => ['$'] + Decimal(BoundBefore(pieces[..i]) + 1)
    case Indexed(digits) => ['$'] + digits
    case _ => Print(pieces[i])
  }

  function ReboundAll(pieces: seq<Piece>, n: nat): string
    requires n <= |pieces| && GoodIndices(pieces)
  {
    if n == 0 then [] else ReboundAll(pieces, n - 1) + Rebound(pieces, n - 1)
  }

  lemma {:induction false} FitIsDigits(pieces: seq<Piece>, after: string)
    requires AllFit(pieces, after)
    ensures GoodIndices(pieces)
  {
    if pieces != [] {
      FitIsDigits(pieces[1..], after);
      assert pieces == [pieces[0]] + pieces[1..];
    }
  }

  lemma TokensAreValid(pieces: seq<Piece>)
    requires GoodIndices(pieces)
    ensures ValidTokens(TokensOf(pieces))
  {
    hide AllDigits, Print, TokensOf;
    var tokens := TokensOf(pieces);
    forall t | t in tokens && t.Numbered?
      ensures AllDigits(t.digits) && t.digits != []
    {
      var i :| 0 <= i < |tokens| && tokens[i] == t;
      assert pieces[i] in pieces;
    }
  }

  lemma GoodPrefix(pieces: seq<Piece>, n: nat)
    requires n <= |pieces| && GoodIndices(pieces)
    ensures GoodIndices(pieces[..n])
  {
  }

  lemma TokensPrefix(pieces: seq<Piece>, n: nat)
    requires n <= |pieces|
    ensures TokensOf(pieces)[..n] == TokensOf(pieces[..n])
  {
    hide TokensOf, TokenOf;
  }

  lemma {:induction false} BoundIsLargest(pieces: seq<Piece>)
    requires GoodIndices(pieces)
    ensures ValidTokens(TokensOf(pieces)) && Largest(TokensOf(pieces)) == BoundBefore(pieces)
  {
    hide AllDigits, Value, Print, TokensOf, ValidTokens;
    TokensAreValid(pieces);
    if pieces != [] {
      var n := |pieces| - 1;
      BoundIsLargest(pieces[..n]);
      TokensPrefix(pieces, n);
      assert TokensOf(pieces)[n] == TokenOf(pieces[n]);
      assert pieces[n] in pieces;
    }
  }

  lemma {:induction false} RenderIsRebound(pieces: seq<Piece>, n: nat)
    requires n <= |pieces| && GoodIndices(pieces)
    ensures ValidTokens(TokensOf(pieces)) && Render(TokensOf(pieces), n) == ReboundAll(pieces, n)
  {
    hide AllDigits, Value, Largest, BoundBefore, Decimal, Print, TokensOf, ValidTokens, GoodIndices;
    BoundIsLargest(pieces);
    if n > 0 {
      RenderIsRebound(pieces, n - 1);
      GoodPrefix(pieces, n - 1);
      BoundIsLargest(pieces[..n - 1]);
      TokensPrefix(pieces, n - 1);
    }
  }

  lemma TailRenders(tokens: seq<Token>, tail: Tail)
    requires ValidTokens(tokens)
    ensures ValidTokens(tokens + TailTokens(tail))
    ensures Render(tokens + TailTokens(tail), |tokens + TailTokens(tail)|) == Render(tokens, |tokens|) + PrintTail(tail)
  {
    hide PrintTail;
    var all := tokens + TailTokens(tail);
    RenderPrefix(all, tokens, |tokens|);
    assert tail.Nothing? ==> PrintTail(tail) == [] by { NothingIsEmpty(); }
  }

  lemma NothingIsEmpty()
    ensures PrintTail(Nothing) == []
  {
  }

  lemma {:induction false} RenderPrefix(all: seq<Token>, tokens: seq<Token>, n: nat)
    requires ValidTokens(all) && tokens <= all && n <= |tokens|
    ensures ValidTokens(tokens) && Render(all, n) == Render(tokens, n)
  {
    hide Largest;
    if n > 0 {
      RenderPrefix(all, tokens, n - 1);
      assert all[..n - 1] == tokens[..n - 1];
    }
  }

  /**
    However a query is made of text, quoted runs, line comments, nested block comments,
    dollar-quoted bodies and placeholders, and whatever it leaves open at its end, it is
    rewritten piece by piece: everything that is not a placeholder stands as it was,
    `?NNN` keeps its number, and a bare `?` gets one past the largest number before it.
   */
  lemma PiecesAreRebound(pieces: seq<Piece>, tail: Tail)
    requires AllFit(pieces, PrintTail(tail)) && FitsTail(tail)
    ensures GoodIndices(pieces)
    ensures Rewritten(PrintAll(pieces) + PrintTail(tail)) == ReboundAll(pieces, |pieces|) + PrintTail(tail)
  {
    hide PrintTail, TailTokens, FitsTail, AllFit, Render, Lex, TokensOf;
    FitIsDigits(pieces, PrintTail(tail));
    LexFindsPieces(pieces, tail);
    RenderIsRebound(pieces, |pieces|);
    TailRenders(TokensOf(pieces), tail);
  }

  // Every string is such a query ----------------------------------------------------------

  lemma {:induction false} QuoteSplits(t: string, quote: char) returns (body: string, closed: bool, rest: string)
    ensures t == Doubled(body, quote) + (if closed then [quote] + rest else [])
    ensures closed ==> !StartsWith(rest, quote)
    ensures !closed ==> rest == []
  {
    if t == [] {
      body, closed, rest := [], false, [];
    } else if t[0] != quote {
      body, closed, rest := QuoteSplits(t[1..], quote);
      assert t == [t[0]] + t[1..];
      var whole := [t[0]] + body;
      assert whole[1..] == body;
      assert Doubled(whole, quote) == [t[0]] + Doubled(body, quote);
      body := whole;
    } else if |t| > 1 && t[1] == quote {
      body, closed, rest := QuoteSplits(t[2..], quote);
      assert t == [quote, quote] + t[2..];
      var whole := [quote] + body;
      assert whole[1..] == body;
      assert Doubled(whole, quote) == [quote, quote] + Doubled(body, quote);
      body := whole;
    } else {
      body, closed, rest := [], true, t[1..];
    }
  }

  lemma {:induction false} LineSplits(t: string) returns (body: string, closed: bool, rest: string)
    ensures t == body + (if closed then ['\n'] + rest else []) && '\n' !in body
    ensures !closed ==> rest == []
  {
    if t == [] {
      body, closed, rest := [], false, [];
    } else if t[0] == '\n' {
      body, closed, rest := [], true, t[1..];
    } else {
      body, closed, rest := LineSplits(t[1..]);
      assert t == [t[0]] + t[1..];
      body := [t[0]] + body;
    }
  }

  /** The text behind an opened comment: items up to where it is closed, or levels that never are. */
  datatype Comment = Ended(items: seq<Item>, rest: string) | Unended(levels: seq<seq<Item>>)

  predicate Splits(t: string, c: Comment) {
    match c
    case Ended(items, rest) => t == PrintItems(items) + (CLOSE + rest) && Clean(items, CLOSE)
    case Unended(levels) =>
      levels != [] && t == PrintItems(levels[0]) + PrintLevels(levels[1..]) && CleanLevels(levels)
  }

  lemma {:induction false} CommentSplits(t: string) returns (c: Comment)
    ensures Splits(t, c) && (c.Ended? ==> |c.rest| < |t|)
    decreases |t|
  {
    hide Splits;
    if t == [] {
      c := Unended([[]]);
      EmptySplits();
    } else if Closes(t) {
      c := Ended([], t[2..]);
      ClosedSplits(t);
    } else if Opens(t) {
      var inner := CommentSplits(t[2..]);
      if inner.Ended? {
        var outer := CommentSplits(inner.rest);
        c := Push(Nested(inner.items), outer);
        NestedSplits(t, inner, outer);
      } else {
        c := Unended([[]] + inner.levels);
        DeeperSplits(t, inner);
      }
    } else {
      var rest := CommentSplits(t[1..]);
      c := Push(Ch(t[0]), rest);
      CharSplits(t, rest);
    }
  }

  /** An item in front of what follows at the same level. */
  function Push(item: Item, c: Comment): Comment {
    match c
    case Ended(items, rest) => Ended([item] + items, rest)
    case Unended(levels) => if levels == [] then c else Unended([[item] + levels[0]] + levels[1..])
  }

  lemma EmptySplits()
    ensures Splits([], Unended([[]]))
  {
    var levels: seq<seq<Item>> := [[]];
    assert levels[1..] == [];
  }

  lemma ClosedSplits(t: string)
    requires Closes(t)
    ensures Splits(t, Ended([], t[2..]))
  {
    assert t == CLOSE + t[2..];
    assert PrintItems([]) + (CLOSE + t[2..]) == CLOSE + t[2..];
  }

  lemma PushPrints(item: Item, items: seq<Item>, after: string)
    requires Clean(items, after) && CleanItem(item, PrintItems(items) + after)
    ensures PrintItems([item] + items) == PrintItem(item) + PrintItems(items) && Clean([item] + items, after)
  {
    assert ([item] + items)[1..] == items;
  }

  lemma PushSplits(item: Item, t: string, c: Comment)
    requires Splits(t, c) && CleanItem(item, t)
    ensures Splits(PrintItem(item) + t, Push(item, c))
  {
    hide PrintItem, Clean, PrintItems;
    match c
    case Ended(items, rest) =>
      CleanItemSame(item, items, rest);
      PushPrints(item, items, CLOSE);
      assert PrintItem(item) + t == PrintItems([item] + items) + (CLOSE + rest);
    case Unended(levels) =>
      PushPrints(item, levels[0], PrintLevels(levels[1..]));
      var all := [[item] + levels[0]] + levels[1..];
      assert all[1..] == levels[1..];
      assert PrintItem(item) + t == PrintItems(all[0]) + PrintLevels(all[1..]);
  }

  lemma CleanItemSame(item: Item, items: seq<Item>, rest: string)
    requires CleanItem(item, PrintItems(items) + (CLOSE + rest))
    ensures CleanItem(item, PrintItems(items) + CLOSE)
  {
    var p := PrintItems(items);
    assert (p + CLOSE)[0] == (p + (CLOSE + rest))[0];
  }

  lemma CharSplits(t: string, rest: Comment)
    requires t != [] && !Opens(t) && !Closes(t) && Splits(t[1..], rest)
    ensures Splits(t, Push(Ch(t[0]), rest))
    ensures rest.Ended? ==> Push(Ch(t[0]), rest).rest == rest.rest
  {
    hide Splits;
    assert t == [t[0]] + t[1..];
    PushSplits(Ch(t[0]), t[1..], rest);
  }

  lemma NestedSplits(t: string, inner: Comment, outer: Comment)
    requires Opens(t) && inner.Ended? && Splits(t[2..], inner) && Splits(inner.rest, outer)
    ensures Splits(t, Push(Nested(inner.items), outer))
  {
    hide Clean, PrintItems;
    assert t == OPEN + t[2..];
    assert t == PrintItem(Nested(inner.items)) + inner.rest;
    PushSplits(Nested(inner.items), inner.rest, outer);
  }

  lemma DeeperSplits(t: string, inner: Comment)
    requires Opens(t) && inner.Unended? && Splits(t[2..], inner)
    ensures Splits(t, Unended([[]] + inner.levels))
  {
    hide Clean, PrintItems;
    var levels := [[]] + inner.levels;
    assert levels[1..] == inner.levels;
    assert t == OPEN + t[2..];
    assert t == PrintLevels(inner.levels);
    EmptyItems(PrintLevels(inner.levels));
  }

  lemma EmptyItems(after: string)
    ensures PrintItems([]) + after == after && Clean([], after)
  {
  }

  lemma {:induction false} TagSplits(t: string, first: bool)
    requires TagLen(t, first).Some?
    ensures var n := TagLen(t, first).value - 1;
            && t[n] == '$'
            && (forall i | 0 <= i < n :: Letter(t[i]) || Digit(t[i]))
            && (first && n > 0 ==> Letter(t[0]))
  {
    if t[0] != '$' {
      TagSplits(t[1..], false);
      var n := TagLen(t, first).value - 1;
      forall i | 0 <= i < n
        ensures Letter(t[i]) || Digit(t[i])
      {
        if i > 0 {
          assert t[i] == t[1..][i - 1];
        }
      }
    }
  }

  lemma {:induction false} FindIsFirst(t: string, tag: string)
    requires tag != []
    ensures var k := Find(t, tag);
            && (k.Some? ==> t[k.value..k.value + |tag|] == tag)
            && forall j | 0 <= j < (if k.Some? then k.value else |t| + 1) :: !(tag <= t[j..])
  {
    assert t[0..] == t;
    if !(tag <= t) && t != [] {
      FindIsFirst(t[1..], tag);
      var k := Find(t, tag);
      if k.Some? {
        assert t[k.value..k.value + |tag|] == t[1..][k.value - 1..k.value - 1 + |tag|];
      }
      forall j | 0 <= j < (if k.Some? then k.value else |t| + 1)
        ensures !(tag <= t[j..])
      {
        if j > 0 {
          assert t[j..] == t[1..][j - 1..];
        }
      }
    }
  }

  /** The front of a non-empty string: one fitting piece and what follows, or a tail up to the end. */
  datatype Front = Piecewise(piece: Piece, rest: string) | Endless(tail: Tail)

  predicate Fronts(s: string, f: Front) {
    match f
    case Piecewise(piece, rest) => s == Print(piece) + rest && Fits(piece, rest) && |rest| < |s|
    case Endless(tail) => s == PrintTail(tail) && FitsTail(tail)
  }

  lemma QuoteFronts(s: string) returns (f: Front)
    requires s != [] && (s[0] == '\'' || s[0] == '"')
    ensures Fronts(s, f)
  {
    assert s == [s[0]] + s[1..];
    var body, closed, rest := QuoteSplits(s[1..], s[0]);
    if closed {
      f := Piecewise(QuotedText(s[0], body), rest);
      assert s == Print(f.piece) + rest;
    } else {
      f := Endless(OpenQuote(s[0], body));
      assert s[1..] == Doubled(body, s[0]);
    }
  }

  lemma LineFronts(s: string) returns (f: Front)
    requires |s| >= 2 && s[0] == '-' && s[1] == '-'
    ensures Fronts(s, f)
  {
    var body, closed, rest := LineSplits(s[2..]);
    assert s == ['-', '-'] + s[2..];
    if closed {
      f := Piecewise(LineComment(body), rest);
      assert s == Print(f.piece) + rest;
    } else {
      f := Endless(OpenLine(body));
      assert s[2..] == body;
    }
  }

  lemma BlockFronts(s: string) returns (f: Front)
    requires Opens(s)
    ensures Fronts(s, f)
  {
    hide Clean, PrintItems, CleanLevels;
    var c := CommentSplits(s[2..]);
    assert s == OPEN + s[2..];
    if c.Ended? {
      f := Piecewise(BlockComment(c.items), c.rest);
      assert s == Print(f.piece) + c.rest;
    } else {
      f := Endless(OpenBlock(c.levels));
      assert s == PrintLevels(c.levels);
    }
  }

  lemma ClosedDollar(name: string, t: string, k: nat)
    requires Name(name) && Find(t, Tag(name)) == Some(k)
    ensures Fronts(Tag(name) + t, Piecewise(DollarText(name, t[..k]), t[k + |Tag(name)|..]))
  {
    hide Find, Name;
    var tag, body, rest := Tag(name), t[..k], t[k + |Tag(name)|..];
    FindIsFirst(t, tag);
    assert t == body + (tag + rest);
    forall j | 0 <= j < |body|
      ensures !(tag <= (body + tag)[j..])
    {
      assert (body + tag)[j..] <= t[j..];
    }
    assert tag + t == Print(DollarText(name, body)) + rest;
  }

  lemma NeverClosedDollar(name: string, t: string)
    requires Name(name) && Find(t, Tag(name)).None?
    ensures Fronts(Tag(name) + t, Endless(OpenDollar(name, t)))
  {
    hide Find, Name;
    FindIsFirst(t, Tag(name));
  }

  lemma DollarFronts(s: string) returns (f: Front)
    requires s != [] && s[0] == '$' && TagLen(s[1..], true).Some?
    ensures Fronts(s, f)
  {
    hide TagLen, Find, Fronts;
    TagSplits(s[1..], true);
    var n := 1 + TagLen(s[1..], true).value;
    var name, t := s[1..n - 1], s[n..];
    assert s[n - 1] == s[1..][n - 2] == '$';
    assert s == Tag(name) + t;
    assert forall i | 0 <= i < |name| :: name[i] == s[1..][i];
    var k := Find(t, Tag(name));
    if k.Some? {
      f := Piecewise(DollarText(name, t[..k.value]), t[k.value + n..]);
      ClosedDollar(name, t, k.value);
    } else {
      f := Endless(OpenDollar(name, t));
      NeverClosedDollar(name, t);
    }
  }

  lemma PlaceholderFronts(s: string) returns (f: Front)
    requires s != [] && s[0] == '?'
    ensures Fronts(s, f)
  {
    var t, n := s[1..], DigitsLen(s[1..]);
    DigitsAreDigits(t);
    f := Piecewise(if n == 0 then Anonymous else Indexed(t[..n]), t[n..]);
    assert s == Print(f.piece) + t[n..];
  }

  lemma FrontExists(s: string) returns (f: Front)
    requires s != []
    ensures Fronts(s, f)
  {
    hide Fronts, TagLen;
    if s[0] == '\'' || s[0] == '"' {
      f := QuoteFronts(s);
    } else if |s| >= 2 && s[0] == '-' && s[1] == '-' {
      f := LineFronts(s);
    } else if Opens(s) {
      f := BlockFronts(s);
    } else if s[0] == '$' && TagLen(s[1..], true).Some? {
      f := DollarFronts(s);
    } else if s[0] == '?' {
      f := PlaceholderFronts(s);
    } else {
      f := Piecewise(Plain(s[0]), s[1..]);
      PlainFronts(s);
    }
  }

  lemma PlainFronts(s: string)
    requires s != [] && s[0] != '\'' && s[0] != '"' && s[0] != '?' && !Opens(s)
    requires !(|s| >= 2 && s[0] == '-' && s[1] == '-') && !(s[0] == '$' && TagLen(s[1..], true).Some?)
    ensures Fronts(s, Piecewise(Plain(s[0]), s[1..]))
  {
    assert s == [s[0]] + s[1..];
  }

  /** Every string is made of fitting pieces and at most one open tail. */
  lemma {:induction false} EveryQueryDecomposes(query: string) returns (pieces: seq<Piece>, tail: Tail)
    ensures query == PrintAll(pieces) + PrintTail(tail)
    ensures AllFit(pieces, PrintTail(tail)) && FitsTail(tail)
    decreases |query|
  {
    hide Print, Fits, PrintTail, FitsTail;
    if query == [] {
      pieces, tail := [], Nothing;
      NothingFits();
    } else {
      var f := FrontExists(query);
      match f
      case Endless(end) =>
        pieces, tail := [], end;
        assert [] + PrintTail(end) == PrintTail(end);
      case Piecewise(piece, rest) =>
        var more;
        more, tail := EveryQueryDecomposes(rest);
        pieces := [piece] + more;
        assert pieces[1..] == more;
        assert PrintAll(pieces) + PrintTail(tail) == Print(piece) + (PrintAll(more) + PrintTail(tail));
    }
  }

  lemma NothingFits()
    ensures FitsTail(Nothing) && PrintAll([]) + PrintTail(Nothing) == []
  {
  }

  /**
    Rewriting preserves bindings, for every query. It is made of pieces and at most one
    open tail; everything outside the placeholders stands as it was, `?NNN` keeps its
    number, and a bare `?` gets one past the largest number before it.
   */
  lemma RewritePreservesBindings(query: string) returns (pieces: seq<Piece>, tail: Tail)
    ensures query == PrintAll(pieces) + PrintTail(tail) && AllFit(pieces, PrintTail(tail)) && FitsTail(tail)
    ensures GoodIndices(pieces) && Rewritten(query) == ReboundAll(pieces, |pieces|) + PrintTail(tail)
  {
    hide AllFit, FitsTail, PrintTail;
    pieces, tail := EveryQueryDecomposes(query);
    PiecesAreRebound(pieces, tail);
  }
}
