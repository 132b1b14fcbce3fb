/** The masked tail of an agent's error output. */
module TailBuffer {
  import opened Basics

  newtype Byte = b: int | 0 <= b < 256
  type Bytes = seq<Byte>

  const NEWLINE: Byte := 10
  const QUESTION: Byte := 63

  // The kept end of a stream -----------------------------------------------------------

  /** The last `keep` bytes, or everything when there is less. */
  function Last(stream: Bytes, keep: nat): (kept: Bytes)
    ensures |kept| <= |stream|
  {
    if |stream| <= keep then stream else stream[|stream| - keep..]
  }

  /** Keeping the end commutes with writing more. */
  lemma LastOfMore(stream: Bytes, p: Bytes, keep: nat)
    ensures Last(Last(stream, keep) + Last(p, keep), keep) == Last(stream + p, keep)
  {
  }

  function Longest(spellings: seq<Bytes>): nat {
    if spellings == [] then 0 else
      var rest := Longest(spellings[..|spellings| - 1]);
      if |spellings[|spellings| - 1]| > rest then |spellings[|spellings| - 1]| else rest
  }

  lemma {:induction false} LongestBounds(spellings: seq<Bytes>, s: Bytes)
    requires s in spellings
    ensures |s| <= Longest(spellings)
  {
    var n := |spellings| - 1;
    assert spellings == spellings[..n] + [spellings[n]];
    if s != spellings[n] {
      LongestBounds(spellings[..n], s);
    }
  }

  // Masking ------------------------------------------------------------------------------

  predicate ZeroFree(needle: Bytes) {
    needle != [] && 0 !in needle
  }

  predicate Occurs(text: Bytes, needle: Bytes, i: nat) {
    i + |needle| <= |text| && text[i..i + |needle|] == needle
  }

  /** The first occurrence at or after a position. */
  function FindFrom(text: Bytes, needle: Bytes, from: nat): (i: Option<nat>)
    requires from <= |text|
    decreases |text| - from
    ensures i.Some? ==>
              from <= i.value && Occurs(text, needle, i.value)
                  && forall j | from <= j < i.value :: !Occurs(text, needle, j)
    ensures i.None? ==> forall j | from <= j :: !Occurs(text, needle, j)
  {
    if from + |needle| > |text| then None
    else if Occurs(text, needle, from) then Some(from)
    else if from == |text| then None
    else FindFrom(text, needle, from + 1)
  }

  function Zeros(n: nat): (z: Bytes)
    ensures |z| == n && forall k | 0 <= k < n :: z[k] == 0
  {
    if n == 0 then [] else Zeros(n - 1) + [0]
  }

  function Blank(text: Bytes, i: nat, n: nat): (r: Bytes)
    requires i + n <= |text|
    ensures |r| == |text| && forall k | 0 <= k < |text| :: r[k] == if i <= k < i + n then 0 else text[k]
  {
    text[..i] + Zeros(n) + text[i + n..]
  }

  /** Every occurrence found from left to right is overwritten with zeros. */
  function MaskFrom(text: Bytes, needle: Bytes, from: nat): (r: Bytes)
    requires from <= |text| && needle != []
    decreases |text| - from
    ensures |r| == |text|
  {
    match FindFrom(text, needle, from)
    case None => text
    case Some(i) => MaskFrom(Blank(text, i, |needle|), needle, i + |needle|)
  }

  /** Spellings are never empty and never hold a zero byte. */
  predicate Usable(spellings: seq<Bytes>) {
    forall i | 0 <= i < |spellings| :: ZeroFree(spellings[i])
  }

  function MaskAll(text: Bytes, spellings: seq<Bytes>): (r: Bytes)
    requires Usable(spellings)
    ensures |r| == |text|
  {
    if spellings == [] then text else
      var n := |spellings| - 1;
      MaskFrom(MaskAll(text, spellings[..n]), spellings[n], 0)
  }

  /** Same bytes, some of them zeroed. */
  predicate Blanked(text: Bytes, r: Bytes) {
    |r| == |text| && forall k | 0 <= k < |text| :: r[k] == text[k] || r[k] == 0
  }

  lemma {:induction false} MaskBlanks(text: Bytes, needle: Bytes, from: nat)
    requires from <= |text| && needle != []
    ensures Blanked(text, MaskFrom(text, needle, from))
    decreases |text| - from
  {
    hide Occurs, FindFrom, Blank;
    var found := FindFrom(text, needle, from);
    if found.Some? {
      OccursFits(text, needle, found.value);
      MaskBlanks(Blank(text, found.value, |needle|), needle, found.value + |needle|);
    }
  }

  /** Zeroing bytes never creates an occurrence. */
  lemma OccursBefore(text: Bytes, r: Bytes, needle: Bytes, i: nat)
    requires Blanked(text, r) && ZeroFree(needle) && Occurs(r, needle, i)
    ensures Occurs(text, needle, i)
  {
    var n := |needle|;
    forall k | 0 <= k < n
      ensures text[i..i + n][k] == needle[k]
    {
      assert r[i + k] == r[i..i + n][k] == needle[k] && needle[k] in needle;
    }
  }

  lemma ZeroStops(text: Bytes, needle: Bytes, j: nat, k: nat)
    requires ZeroFree(needle) && j <= k < j + |needle| && k < |text| && text[k] == 0
    ensures !Occurs(text, needle, j)
  {
    assert j + |needle| <= |text| ==> text[j..j + |needle|][k - j] == 0;
  }

  /** After masking, the spelling is gone. */
  lemma {:induction false} MaskRemoves(text: Bytes, needle: Bytes, from: nat, j: nat)
    requires from <= |text| && ZeroFree(needle) && from <= j
    ensures !Occurs(MaskFrom(text, needle, from), needle, j)
    decreases |text| - from
  {
    hide Occurs;
    var found := FindFrom(text, needle, from);
    if found.Some? {
      var i, n := found.value, |needle|;
      OccursFits(text, needle, i);
      var blank := Blank(text, i, n);
      var r := MaskFrom(blank, needle, i + n);
      MaskBlanks(blank, needle, i + n);
      if j >= i + n {
        MaskRemoves(blank, needle, i + n, j);
      } else if j >= i {
        ZeroStops(r, needle, j, j);
      } else if Occurs(r, needle, j) {
        OccursBefore(blank, r, needle, j);
        OccursBefore(text, blank, needle, j);
      }
    }
  }

  lemma OccursFits(text: Bytes, needle: Bytes, i: nat)
    requires Occurs(text, needle, i)
    ensures i + |needle| <= |text|
  {
  }

  lemma BlankedTwice(a: Bytes, b: Bytes, c: Bytes)
    requires Blanked(a, b) && Blanked(b, c)
    ensures Blanked(a, c)
  {
  }

  /** No spelling occurs whole in the masked text, and nothing but masked bytes changed. */
  lemma {:induction false} MaskAllRemoves(text: Bytes, spellings: seq<Bytes>)
    requires Usable(spellings)
    ensures Blanked(text, MaskAll(text, spellings))
    ensures forall i, j: nat | 0 <= i < |spellings| :: !Occurs(MaskAll(text, spellings), spellings[i], j)
  {
    hide Occurs, MaskFrom;
    if spellings != [] {
      var n := |spellings| - 1;
      var before := MaskAll(text, spellings[..n]);
      var r := MaskAll(text, spellings);
      MaskAllRemoves(text, spellings[..n]);
      MaskBlanks(before, spellings[n], 0);
      BlankedTwice(text, before, r);
      forall i, j: nat | 0 <= i < |spellings|
        ensures !Occurs(r, spellings[i], j)
      {
        if i == n {
          MaskRemoves(before, spellings[n], 0, j);
        } else if Occurs(r, spellings[i], j) {
          OccursBefore(before, r, spellings[..n][i], j);
        }
      }
    }
  }

  predicate Covered(text: Bytes, needle: Bytes, k: nat) {
    exists i: nat :: i <= k < i + |needle| && Occurs(text, needle, i)
  }

  /** A byte is masked only where a spelling stood. */
  lemma {:induction false} MaskIsNeeded(text: Bytes, needle: Bytes, from: nat, k: nat)
    requires from <= |text| && ZeroFree(needle) && k < |text| && text[k] != 0 && MaskFrom(text, needle, from)[k] == 0
    ensures Covered(text, needle, k)
    decreases |text| - from
  {
    hide Occurs;
    var i, n := FindFrom(text, needle, from).value, |needle|;
    OccursFits(text, needle, i);
    if !(i <= k < i + n) {
      var blank := Blank(text, i, n);
      MaskIsNeeded(blank, needle, i + n, k);
      var j: nat :| j <= k < j + n && Occurs(blank, needle, j);
      OccursBefore(text, blank, needle, j);
    }
  }

  // The window ---------------------------------------------------------------------------

  /** A window that would begin inside a masked run begins at the start of that run. */
  function Retreat(text: Bytes, start: nat): (s: nat)
    requires start <= |text| && (start > 0 ==> start < |text|)
    ensures s <= start && (s > 0 ==> s < |text|)
    ensures s > 0 ==> text[s] != 0 || text[s - 1] != 0
    ensures forall k | s <= k < start :: text[k] == 0
  {
    if start > 0 && text[start] == 0 && text[start - 1] == 0 then Retreat(text, start - 1) else start
  }

  function StartOf(text: Bytes, window: nat): (s: nat)
    requires window > 0
    ensures s <= |text| && (s > 0 ==> s < |text|)
  {
    Retreat(text, if |text| > window then |text| - window else 0)
  }

  /** Zero bytes the agent really wrote are shown as question marks, so that a zero always means masked. */
  function Cleaned(text: Bytes): (r: Bytes)
    ensures |r| == |text| && forall k | 0 <= k < |text| :: r[k] == if text[k] == 0 then QUESTION else text[k]
  {
    if text == [] then [] else
      var n := |text| - 1;
      Cleaned(text[..n]) + [if text[n] == 0 then QUESTION else text[n]]
  }

  function Masked(kept: Bytes, spellings: seq<Bytes>): (r: Bytes)
    requires Usable(spellings)
    ensures |r| == |kept|
  {
    MaskAll(Cleaned(kept), spellings)
  }

  // What is shown --------------------------------------------------------------------------

  datatype Shown = Plain(b: Byte) | Redacted

  function RunLen(text: Bytes): (n: nat)
    ensures n <= |text| && (text != [] && text[0] == 0 ==> n > 0)
    ensures forall k | 0 <= k < n :: text[k] == 0
    ensures n < |text| ==> text[n] != 0
  {
    if text == [] || text[0] != 0 then 0 else 1 + RunLen(text[1..])
  }

  /** One mask for each run of masked bytes. */
  function Show(text: Bytes): seq<Shown> {
    if text == [] then []
    else if text[0] != 0 then [Plain(text[0])] + Show(text[1..])
    else [Redacted] + Show(text[RunLen(text)..])
  }

  function Unmasked(text: Bytes): Bytes {
    if text == [] then [] else (if text[0] != 0 then [text[0]] else []) + Unmasked(text[1..])
  }

  function Readable(shown: seq<Shown>): Bytes {
    if shown == [] then [] else (if shown[0].Plain? then [shown[0].b] else []) + Readable(shown[1..])
  }

  lemma {:induction false} UnmaskedSkips(text: Bytes, n: nat)
    requires n <= |text| && forall k | 0 <= k < n :: text[k] == 0
    ensures Unmasked(text) == Unmasked(text[n..])
  {
    if n > 0 {
      UnmaskedSkips(text[1..], n - 1);
      assert text[1..][n - 1..] == text[n..];
    } else {
      assert text[0..] == text;
    }
  }

  /** What can be read is exactly the unmasked bytes, and masks never stand side by side. */
  lemma {:induction false} ShowIsFaithful(text: Bytes)
    ensures Readable(Show(text)) == Unmasked(text)
    ensures forall i | 0 < i < |Show(text)| :: !(Show(text)[i].Redacted? && Show(text)[i - 1].Redacted?)
    ensures Show(text) != [] && text[0] != 0 ==> Show(text)[0].Plain?
    decreases |text|
  {
    if text != [] {
      var n := if text[0] != 0 then 1 else RunLen(text);
      ShowIsFaithful(text[n..]);
      var head := if text[0] != 0 then Plain(text[0]) else Redacted;
      assert Show(text) == [head] + Show(text[n..]);
      assert Show(text)[1..] == Show(text[n..]);
      if text[0] == 0 {
        UnmaskedSkips(text, n);
        NothingFromNothing(text[n..]);
      }
    }
  }

  lemma NothingFromNothing(text: Bytes)
    ensures text == [] ==> Show(text) == []
  {
  }

  /** The first, partial line is dropped when there is a line after it. */
  function DropPartial(shown: seq<Shown>): seq<Shown> {
    match FirstNewline(shown)
    case None => shown
    case Some(i) => shown[i + 1..]
  }

  function FirstNewline(shown: seq<Shown>): (i: Option<nat>)
    ensures i.Some? ==> i.value < |shown| && shown[i.value] == Plain(NEWLINE) && Plain(NEWLINE) !in shown[..i.value]
    ensures i.None? ==> Plain(NEWLINE) !in shown
  {
    if shown == [] then None
    else if shown[0] == Plain(NEWLINE) then Some(0)
    else match FirstNewline(shown[1..])
      case None => None
      case Some(i) => assert shown[..i + 1] == [shown[0]] + shown[1..][..i]; Some(i + 1)
  }

  function TailOf(kept: Bytes, spellings: seq<Bytes>, window: nat): seq<Shown>
    requires Usable(spellings) && window > 0
  {
    var text := Masked(kept, spellings);
    var start := StartOf(text, window);
    var shown := Show(text[start..]);
    if start > 0 && text[start - 1] != NEWLINE then DropPartial(shown) else shown
  }

  // What the window can show of a secret -----------------------------------------------------

  /** An occurrence that starts before the kept bytes ends before the window begins. */
  lemma StraddlerEndsBeforeWindow(stream: Bytes, spellings: seq<Bytes>, window: nat, i: nat, p: nat)
    requires i < |spellings| && Occurs(stream, spellings[i], p)
    requires |stream| > window + Longest(spellings) && p < |stream| - (window + Longest(spellings))
    ensures p + |spellings[i]| <= |stream| - window
  {
    LongestBounds(spellings, spellings[i]);
  }

  lemma CleanedLast(stream: Bytes, keep: nat)
    ensures Cleaned(Last(stream, keep)) == Last(Cleaned(stream), keep)
  {
    hide Cleaned;
  }

  lemma OccursInTail(stream: Bytes, needle: Bytes, p: nat, off: nat)
    requires off <= p && off <= |stream|
    ensures Occurs(stream, needle, p) <==> Occurs(stream[off..], needle, p - off)
  {
    if p + |needle| <= |stream| {
      assert stream[p..p + |needle|] == stream[off..][p - off..p - off + |needle|];
    }
  }

  /** Stream position `k` is cut away or masked. */
  predicate Unreadable(text: Bytes, off: nat, start: nat, k: nat)
    requires k < off + |text|
  {
    k < off + start || text[k - off] == 0
  }

  predicate AllUnreadable(text: Bytes, off: nat, start: nat, p: nat, end: nat) {
    end <= off + |text| && forall k | p <= k < end :: Unreadable(text, off, start, k)
  }

  predicate SomeUnreadable(text: Bytes, off: nat, start: nat, p: nat, end: nat) {
    end <= off + |text| && exists k :: p <= k < end && Unreadable(text, off, start, k)
  }

  /**
    Whatever was written in whatever pieces, no occurrence of a spelling in the stream
    can be read whole from the tail; one that starts before the kept bytes cannot be
    read at all.
   */
  lemma TailHides(stream: Bytes, spellings: seq<Bytes>, window: nat, i: nat, p: nat)
    requires Usable(spellings) && window > 0 && i < |spellings| && Occurs(Cleaned(stream), spellings[i], p)
    ensures var kept := Last(stream, window + Longest(spellings));
            var text := Masked(kept, spellings);
            var off, start := |stream| - |kept|, StartOf(text, window);
            && SomeUnreadable(text, off, start, p, p + |spellings[i]|)
            && (p < off ==> AllUnreadable(text, off, start, p, p + |spellings[i]|))
  {
    hide Cleaned, StartOf, Masked, Longest, Occurs, Unreadable;
    var kept := Last(stream, window + Longest(spellings));
    OccursFits(Cleaned(stream), spellings[i], p);
    if p < |stream| - |kept| {
      StraddlerHidden(stream, spellings, window, i, p);
      assert Unreadable(Masked(kept, spellings), |stream| - |kept|, StartOf(Masked(kept, spellings), window), p);
    } else {
      var k := KeptMasked(stream, spellings, window, i, p);
    }
  }

  lemma StraddlerHidden(stream: Bytes, spellings: seq<Bytes>, window: nat, i: nat, p: nat)
    requires Usable(spellings) && window > 0 && i < |spellings| && Occurs(Cleaned(stream), spellings[i], p)
    requires p < |stream| - |Last(stream, window + Longest(spellings))|
    ensures var kept := Last(stream, window + Longest(spellings));
            var text := Masked(kept, spellings);
            AllUnreadable(text, |stream| - |kept|, StartOf(text, window), p, p + |spellings[i]|)
  {
    hide Cleaned, StartOf, Masked, Longest, Occurs, Unreadable;
    LongestBounds(spellings, spellings[i]);
    StraddlerEndsBeforeWindow(Cleaned(stream), spellings, window, i, p);
    var kept := Last(stream, window + Longest(spellings));
    StraddlerIsUnseen(Masked(kept, spellings), window, |stream| - |kept|, p, p + |spellings[i]|);
  }

  lemma KeptMasked(stream: Bytes, spellings: seq<Bytes>, window: nat, i: nat, p: nat) returns (k: nat)
    requires Usable(spellings) && window > 0 && i < |spellings| && Occurs(Cleaned(stream), spellings[i], p)
    requires p >= |stream| - |Last(stream, window + Longest(spellings))|
    ensures var kept := Last(stream, window + Longest(spellings));
            var text := Masked(kept, spellings);
            && p <= k < p + |spellings[i]| <= |stream|
            && Unreadable(text, |stream| - |kept|, StartOf(text, window), k)
  {
    hide Cleaned, StartOf, Masked, Longest, Occurs, Unreadable, Last;
    var kept := Last(stream, window + Longest(spellings));
    var off := |stream| - |kept|;
    OccursFits(Cleaned(stream), spellings[i], p);
    KeptOccurrence(stream, window + Longest(spellings), spellings[i], p);
    var j := MaskedWithin(kept, spellings, i, p - off);
    ZeroIsUnreadable(Masked(kept, spellings), off, StartOf(Masked(kept, spellings), window), j);
    k := j + off;
  }

  lemma KeptOccurrence(stream: Bytes, keep: nat, needle: Bytes, p: nat)
    requires Occurs(Cleaned(stream), needle, p) && p >= |stream| - |Last(stream, keep)|
    ensures Occurs(Cleaned(Last(stream, keep)), needle, p - (|stream| - |Last(stream, keep)|))
  {
    hide Cleaned, Occurs;
    var off := |stream| - |Last(stream, keep)|;
    CleanedLast(stream, keep);
    OccursInTail(Cleaned(stream), needle, p, off);
    assert Cleaned(Last(stream, keep)) == Cleaned(stream)[off..];
  }

  lemma ZeroIsUnreadable(text: Bytes, off: nat, start: nat, j: nat)
    requires j < |text| && text[j] == 0
    ensures Unreadable(text, off, start, off + j)
  {
  }

  lemma MaskedWithin(kept: Bytes, spellings: seq<Bytes>, i: nat, p: nat) returns (j: nat)
    requires Usable(spellings) && i < |spellings| && Occurs(Cleaned(kept), spellings[i], p)
    ensures p <= j < p + |spellings[i]| <= |kept| && Masked(kept, spellings)[j] == 0
  {
    hide Cleaned, MaskAll, Occurs, Usable;
    OccursFits(Cleaned(kept), spellings[i], p);
    MaskAllRemoves(Cleaned(kept), spellings);
    SomethingMasked(Cleaned(kept), Masked(kept, spellings), spellings[i], p);
    j :| p <= j < p + |spellings[i]| && Masked(kept, spellings)[j] == 0;
  }

  lemma StraddlerIsUnseen(text: Bytes, window: nat, off: nat, p: nat, end: nat)
    requires window > 0 && |text| > window && end <= off + |text| - window
    ensures AllUnreadable(text, off, StartOf(text, window), p, end)
  {
  }

  lemma StillOccurs(text: Bytes, r: Bytes, needle: Bytes, i: nat)
    requires Blanked(text, r) && Occurs(text, needle, i) && forall k | i <= k < i + |needle| :: r[k] != 0
    ensures Occurs(r, needle, i)
  {
    assert r[i..i + |needle|] == text[i..i + |needle|];
  }

  lemma SomethingMasked(text: Bytes, r: Bytes, needle: Bytes, i: nat)
    requires Blanked(text, r) && Occurs(text, needle, i) && !Occurs(r, needle, i)
    ensures exists k: nat :: i <= k < i + |needle| && r[k] == 0
  {
    if forall k: nat | i <= k < i + |needle| :: r[k] != 0 {
      StillOccurs(text, r, needle, i);
    }
  }

  // What the shown text can spell ------------------------------------------------------------

  /** The spelling stands in the shown text, byte after byte. */
  predicate Quotes(shown: seq<Shown>, needle: Bytes, j: nat) {
    j + |needle| <= |shown| && forall k | 0 <= k < |needle| :: shown[j + k] == Plain(needle[k])
  }

  lemma {:induction false} QuotedInFront(text: Bytes, needle: Bytes)
    requires Quotes(Show(text), needle, 0)
    ensures needle <= text
  {
    if needle != [] {
      var shown := Show(text);
      assert shown[0] == Plain(needle[0]);
      assert shown == [Plain(text[0])] + Show(text[1..]);
      forall k | 0 <= k < |needle[1..]|
        ensures Show(text[1..])[k] == Plain(needle[1..][k])
      {
        assert shown[k + 1] == Plain(needle[k + 1]);
      }
      QuotedInFront(text[1..], needle[1..]);
      assert needle == [needle[0]] + needle[1..] && text == [text[0]] + text[1..];
    }
  }

  /** What can be read in one piece stood in the text in one piece. */
  lemma {:induction false} QuotedOccurs(text: Bytes, needle: Bytes, j: nat) returns (q: nat)
    requires needle != [] && Quotes(Show(text), needle, j)
    ensures Occurs(text, needle, q)
    decreases |text|
  {
    if j == 0 {
      QuotedInFront(text, needle);
      q := 0;
      assert text[0..|needle|] == needle;
    } else {
      var n := if text[0] != 0 then 1 else RunLen(text);
      var shown := Show(text);
      assert shown[1..] == Show(text[n..]);
      forall k | 0 <= k < |needle|
        ensures Show(text[n..])[j - 1 + k] == Plain(needle[k])
      {
        assert shown[j + k] == shown[1..][j - 1 + k];
      }
      q := QuotedOccurs(text[n..], needle, j - 1);
      q := q + n;
      OccursInTail(text, needle, q, n);
    }
  }

  lemma SuffixQuotes(shown: seq<Shown>, cut: nat, needle: Bytes, j: nat)
    requires cut <= |shown| && Quotes(shown[cut..], needle, j)
    ensures Quotes(shown, needle, cut + j)
  {
    forall k | 0 <= k < |needle|
      ensures shown[cut + j + k] == Plain(needle[k])
    {
      assert shown[cut..][j + k] == shown[cut + (j + k)];
    }
  }

  /** No spelling can be read anywhere in the tail that is returned. */
  lemma TailNeverQuotes(kept: Bytes, spellings: seq<Bytes>, window: nat, i: nat, j: nat)
    requires Usable(spellings) && window > 0 && i < |spellings|
    ensures !Quotes(TailOf(kept, spellings, window), spellings[i], j)
  {
    hide Show, MaskAll, Cleaned, Occurs, FirstNewline, Quotes, Retreat;
    var text := Masked(kept, spellings);
    var start := StartOf(text, window);
    var shown, tail := Show(text[start..]), TailOf(kept, spellings, window);
    if Quotes(tail, spellings[i], j) {
      var cut := |shown| - |tail|;
      assert tail == shown[cut..];
      SuffixQuotes(shown, cut, spellings[i], j);
      var q := QuotedOccurs(text[start..], spellings[i], cut + j);
      OccursInTail(text, spellings[i], start + q, start);
      MaskAllRemoves(Cleaned(kept), spellings);
    }
  }

  // The buffer as it runs ---------------------------------------------------------------------

  method IndexFrom(text: array<Byte>, needle: Bytes, from: nat) returns (i: Option<nat>)
    requires from <= text.Length && needle != []
    ensures i == FindFrom(text[..], needle, from)
  {
    var j := from;
    while j + |needle| <= text.Length
      invariant from <= j <= text.Length
      invariant FindFrom(text[..], needle, from) == FindFrom(text[..], needle, j)
    {
      if text[j..j + |needle|] == needle {
        assert Occurs(text[..], needle, j);
        return Some(j);
      }
      assert !Occurs(text[..], needle, j);
      j := j + 1;
    }
    i := None;
  }

  method Clear(text: array<Byte>, i: nat, n: nat)
    requires i + n <= text.Length
    modifies text
    ensures text[..] == Blank(old(text[..]), i, n)
  {
    for k := i to i + n
      invariant forall j | 0 <= j < text.Length :: text[j] == if i <= j < k then 0 else old(text[j])
    {
      text[k] := 0;
    }
  }

  /** One spelling, from left to right, in place. */
  method MaskSpelling(text: array<Byte>, needle: Bytes)
    requires ZeroFree(needle)
    modifies text
    ensures text[..] == MaskFrom(old(text[..]), needle, 0)
  {
    hide FindFrom, Blank;
    var from := 0;
    while true
      invariant from <= text.Length
      invariant MaskFrom(text[..], needle, from) == MaskFrom(old(text[..]), needle, 0)
      decreases text.Length - from
    {
      var i := IndexFrom(text, needle, from);
      if i.None? {
        break;
      }
      OccursFits(text[..], needle, i.value);
      Clear(text, i.value, |needle|);
      from := i.value + |needle|;
    }
  }

  method MaskSpellings(text: array<Byte>, spellings: seq<Bytes>)
    requires Usable(spellings)
    modifies text
    ensures text[..] == Masked(old(text[..]), spellings)
  {
    for i := 0 to text.Length
      invariant forall j | 0 <= j < text.Length ::
                  text[j] == if j < i && old(text[j]) == 0 then QUESTION else old(text[j])
    {
      if text[i] == 0 {
        text[i] := QUESTION;
      }
    }
    ghost var cleaned := Cleaned(old(text[..]));
    assert text[..] == cleaned;
    assert spellings[..0] == [];
    for i := 0 to |spellings|
      invariant text[..] == MaskAll(cleaned, spellings[..i])
    {
      assert spellings[..i + 1][..i] == spellings[..i];
      MaskSpelling(text, spellings[i]);
    }
    assert spellings[..|spellings|] == spellings;
  }

  lemma ShowStep(text: Bytes, i: nat)
    requires i < |text|
    ensures Show(text[i..]) ==
            if text[i] != 0 then [Plain(text[i])] + Show(text[i + 1..])
                else [Redacted] + Show(text[i + RunLen(text[i..])..])
  {
    var n := RunLen(text[i..]);
    assert text[i..][1..] == text[i + 1..] && text[i..][n..] == text[i + n..];
  }

  /** The window as one mask per masked run. */
  method Quote(text: array<Byte>, start: nat) returns (shown: seq<Shown>)
    requires start <= text.Length
    ensures shown == Show(text[..][start..])
  {
    hide Show, RunLen;
    shown := [];
    ghost var bytes := text[..];
    var i := start;
    while i < text.Length
      invariant start <= i <= text.Length
      invariant Show(bytes[start..]) == shown + Show(bytes[i..])
    {
      ShowStep(bytes, i);
      if text[i] != 0 {
        shown := shown + [Plain(text[i])];
        i := i + 1;
      } else {
        i := SkipRun(text, i);
        shown := shown + [Redacted];
      }
    }
    assert bytes[i..] == [];
    NothingFromNothing(bytes[i..]);
  }

  method SkipRun(text: array<Byte>, i: nat) returns (end: nat)
    requires i < text.Length && text[i] == 0
    ensures i < end <= text.Length && end == i + RunLen(text[..][i..])
  {
    end := i;
    while end < text.Length && text[end] == 0
      invariant i <= end <= text.Length
      invariant RunLen(text[..][i..]) == (end - i) + RunLen(text[..][end..])
    {
      assert text[..][end..][1..] == text[..][end + 1..];
      end := end + 1;
    }
  }

  method FindStart(text: array<Byte>, window: nat) returns (start: nat)
    requires window > 0
    ensures start == StartOf(text[..], window)
  {
    start := if text.Length > window then text.Length - window else 0;
    while start > 0 && text[start] == 0 && text[start - 1] == 0
      invariant 0 <= start <= text.Length && (start > 0 ==> start < text.Length)
      invariant StartOf(text[..], window) == Retreat(text[..], start)
    {
      start := start - 1;
    }
  }

  method Trim(p: Bytes, keep: nat) returns (q: Bytes)
    ensures q == Last(p, keep)
  {
    q := p;
    if |q| > keep {
      q := q[|q| - keep..];
    }
  }

  class Buffer {
    const window: nat
    const keep: nat
    const spellings: seq<Bytes>
    var buf: Bytes
    /** Everything ever written. */
    ghost var stream: Bytes

    ghost predicate Valid()
      reads this
    {
      && window > 0 && keep == window + Longest(spellings) && Usable(spellings)
      && buf == Last(stream, keep)
    }

    constructor (window: nat, spellings: seq<Bytes>)
      requires window > 0 && Usable(spellings)
      ensures Valid() && stream == [] && this.window == window && this.spellings == spellings
    {
      var extra := 0;
      for i := 0 to |spellings|
        invariant extra == Longest(spellings[..i])
      {
        assert spellings[..i + 1][..i] == spellings[..i];
        if |spellings[i]| > extra {
          extra := |spellings[i]|;
        }
      }
      assert spellings[..|spellings|] == spellings;
      this.window, this.keep, this.spellings := window, window + extra, spellings;
      buf, stream := [], [];
    }

    /** Whatever the pieces, the buffer holds exactly the last `keep` bytes of the stream. */
    method Write(p: Bytes) returns (written: nat)
      requires Valid()
      modifies this
      ensures Valid() && stream == old(stream) + p && written == |p|
    {
      hide Last, Longest, Usable;
      written := |p|;
      LastOfMore(stream, p, keep);
      var q := Trim(p, keep);
      buf := Trim(buf + q, keep);
      stream := stream + p;
    }

    method Tail() returns (tail: seq<Shown>)
      requires Valid()
      ensures tail == TailOf(Last(stream, keep), spellings, window)
      ensures forall i: nat, j: nat | i < |spellings| :: !Quotes(tail, spellings[i], j)
    {
      hide Show, Masked, StartOf, Last, Longest;
      var text := new Byte[|buf|](i requires 0 <= i < |buf| reads this => buf[i]);
      assert text[..] == buf;
      MaskSpellings(text, spellings);
      var start := FindStart(text, window);
      var partial := start > 0 && text[start - 1] != NEWLINE;
      tail := Quote(text, start);
      if partial {
        tail := DropPartial(tail);
      }
      forall i: nat, j: nat | i < |spellings|
        ensures !Quotes(tail, spellings[i], j)
      {
        TailNeverQuotes(buf, spellings, window, i, j);
      }
    }
  }
}
