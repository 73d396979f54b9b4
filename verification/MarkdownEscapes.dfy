/**
 * Markdown to plain text: escaped characters are put out of reach as placeholders, delimiters of
 * emphasis are stripped, and the characters are put back. Text is a sequence of runes.
 */
module MarkdownEscapes {
  type Text = seq<int>

  /** The escapable characters: \ ` * { } [ ] ( ) # + - . ! _ > ~ | */
  const ESCAPABLE: Text :=
    [0x5C, 0x60, 0x2A, 0x7B, 0x7D, 0x5B, 0x5D, 0x28, 0x29, 0x23, 0x2B, 0x2D, 0x2E, 0x21, 0x5F, 0x3E, 0x7E, 0x7C]
  const BACKSLASH := 0x5C
  const FIRST_PLACEHOLDER := 0xE000

  function IndexOf(c: int, from: nat): (i: int)
    requires from <= |ESCAPABLE|
    ensures i == -1 || (from <= i < |ESCAPABLE| && ESCAPABLE[i] == c)
    ensures i == -1 ==> forall k :: from <= k < |ESCAPABLE| ==> ESCAPABLE[k] != c
    decreases |ESCAPABLE| - from
  {
    if from == |ESCAPABLE| then -1 else if ESCAPABLE[from] == c then from else IndexOf(c, from + 1)
  }

  predicate IsPlaceholder(c: int) {
    FIRST_PLACEHOLDER <= c < FIRST_PLACEHOLDER + |ESCAPABLE|
  }

  // ---------- the two passes ----------

  /** The text from `i` on with each escaped character as its placeholder. */
  function Protected(v: Text, i: nat): Text
    requires i <= |v|
    decreases |v| - i
  {
    if i == |v| then []
    else if v[i] == BACKSLASH && i + 1 < |v| && IndexOf(v[i + 1], 0) >= 0 then
      [FIRST_PLACEHOLDER + IndexOf(v[i + 1], 0)] + Protected(v, i + 2)
    else [v[i]] + Protected(v, i + 1)
  }

  /** Writing one more piece of a text of which `rest` is to follow. */
  method Extend(done: Text, piece: Text, ghost all: Text, ghost rest: Text) returns (more: Text)
    requires all == done + (piece + rest)
    ensures all == more + rest && more == done + piece
  {
    more := done + piece;
  }

  method ProtectMarkdownEscapes(value: Text) returns (protected: Text)
    ensures protected == Protected(value, 0)
  {
    hide IndexOf, ESCAPABLE;
    protected := [];
    var index := 0;
    while index < |value|
      invariant 0 <= index <= |value|
      invariant Protected(value, 0) == protected + Protected(value, index)
    {
      if value[index] == BACKSLASH && index + 1 < |value| {
        var escapedIndex := IndexOf(value[index + 1], 0);
        if escapedIndex >= 0 {
          protected := Extend(protected, [FIRST_PLACEHOLDER + escapedIndex], Protected(value, 0),
                              Protected(value, index + 2));
          index := index + 2;
          continue;
        }
      }
      protected := Extend(protected, [value[index]], Protected(value, 0), Protected(value, index + 1));
      index := index + 1;
    }
  }

  function RestoredRune(c: int): int {
    if IsPlaceholder(c) then ESCAPABLE[c - FIRST_PLACEHOLDER] else c
  }

  function Restored(v: Text): (r: Text)
    ensures |r| == |v|
  {
    seq(|v|, i requires 0 <= i < |v| => RestoredRune(v[i]))
  }

  method RestoreMarkdownEscapes(value: Text) returns (restored: Text)
    ensures restored == Restored(value)
  {
    restored := [];
    for i := 0 to |value|
      invariant restored == Restored(value[..i])
    {
      var index := value[i] - FIRST_PLACEHOLDER;
      if index >= 0 && index < |ESCAPABLE| {
        restored := restored + [ESCAPABLE[index]];
        continue;
      }
      restored := restored + [value[i]];
    }
    assert value[..|value|] == value;
  }

  // ---------- stripping a delimiter ----------

  /** Unicode's classes of runes: white space, and white space, punctuation and symbols together. */
  datatype Classes = Classes(space: int -> bool, separator: int -> bool)

  predicate Boundary(u: Classes, c: int) {
    c == 0 || u.separator(c)
  }

  predicate StandsAt(v: Text, k: nat, d: Text) {
    k + |d| <= |v| && v[k..k + |d|] == d
  }

  /** The first place at or after `from` where the delimiter stands, or -1. */
  function Find(v: Text, from: nat, d: Text): (i: int)
    ensures i == -1 || (from <= i && StandsAt(v, i, d))
    ensures forall k: nat :: from <= k && (i == -1 || k < i) ==> !StandsAt(v, k, d)
    decreases |v| - from
  {
    if from + |d| > |v| then -1 else if StandsAt(v, from, d) then from else Find(v, from + 1, d)
  }

  predicate ValidPair(u: Classes, v: Text, open: nat, close: nat, width: nat)
    requires open + width <= close <= close + width <= |v|
  {
    && open + width < close
    && !u.space(v[open + width]) && !u.space(v[close - 1])
    && Boundary(u, if open > 0 then v[open - 1] else 0)
    && Boundary(u, if close + width < |v| then v[close + width] else 0)
  }

  /** The text between two places. */
  function Cut(v: Text, from: nat, to: nat): Text
    requires from <= to <= |v|
  {
    v[from..to]
  }

  /** What is left of the text from `cursor` on. */
  function Stripped(u: Classes, v: Text, d: Text, cursor: nat): Text
    requires d != [] && cursor <= |v|
    decreases |v| - cursor
  {
    var open := Find(v, cursor, d);
    if open < 0 then Cut(v, cursor, |v|)
    else
      var inner := open + |d|;
      var close := Find(v, inner, d);
      if close < 0 then Cut(v, cursor, |v|)
      else if ValidPair(u, v, open, close, |d|) then Cut(v, cursor, open) + Cut(v, inner, close)
        + Stripped(u, v, d, close + |d|)
      else Cut(v, cursor, inner) + Stripped(u, v, d, inner)
  }

  method ValidMarkdownDelimiter(u: Classes, value: Text, open: nat, close: nat, delimiterLength: nat, inner: Text)
    returns (valid: bool)
    requires open + delimiterLength <= close <= close + delimiterLength <= |value|
      && inner == Cut(value, open + delimiterLength, close)
    ensures valid == ValidPair(u, value, open, close, delimiterLength)
  {
    if inner == [] {
      return false;
    }
    var first, last := inner[0], inner[|inner| - 1];
    if u.space(first) || u.space(last) {
      return false;
    }
    var before := 0;
    if open > 0 {
      before := value[open - 1];
    }
    var after := 0;
    if close + delimiterLength < |value| {
      after := value[close + delimiterLength];
    }
    return Boundary(u, before) && Boundary(u, after);
  }

  lemma StripNext(u: Classes, v: Text, d: Text, cursor: nat)
    requires d != [] && cursor <= |v|
    ensures var open := Find(v, cursor, d);
      if open < 0 || Find(v, open + |d|, d) < 0 then Stripped(u, v, d, cursor) == Cut(v, cursor, |v|)
      else
        var inner, close := open + |d|, Find(v, open + |d|, d);
        Stripped(u, v, d, cursor) ==
          if ValidPair(u, v, open, close, |d|) then Cut(v, cursor, open) + Cut(v, inner, close)
            + Stripped(u, v, d, close + |d|)
          else Cut(v, cursor, inner) + Stripped(u, v, d, inner)
  {
  }

  method StripMarkdownDelimiter(u: Classes, value: Text, delimiter: Text) returns (plain: Text)
    requires delimiter != []
    ensures plain == Stripped(u, value, delimiter, 0)
  {
    hide ValidPair, Stripped, Find, Boundary, Cut;
    plain := [];
    var cursor := 0;
    while cursor < |value|
      invariant 0 <= cursor <= |value|
      invariant Stripped(u, value, delimiter, 0) == plain + Stripped(u, value, delimiter, cursor)
      decreases |value| - cursor
    {
      StripNext(u, value, delimiter, cursor);
      var open := Find(value, cursor, delimiter);
      if open < 0 {
        plain := plain + Cut(value, cursor, |value|);
        return;
      }
      var innerStart := open + |delimiter|;
      var close := Find(value, innerStart, delimiter);
      if close < 0 {
        plain := plain + Cut(value, cursor, |value|);
        return;
      }
      var inner := Cut(value, innerStart, close);
      var valid := ValidMarkdownDelimiter(u, value, open, close, |delimiter|, inner);
      if valid {
        var kept := Cut(value, cursor, open) + inner;
        plain := Extend(plain, kept, Stripped(u, value, delimiter, 0),
                        Stripped(u, value, delimiter, close + |delimiter|));
        cursor := close + |delimiter|;
        continue;
      }
      plain := Extend(plain, Cut(value, cursor, innerStart), Stripped(u, value, delimiter, 0),
                      Stripped(u, value, delimiter, innerStart));
      cursor := innerStart;
    }
    StripNext(u, value, delimiter, cursor);
    plain := plain + Cut(value, cursor, |value|);
  }

  // ---------- what stripping keeps ----------

  /** The text without the rune `c`. */
  function Without(v: Text, c: int): Text {
    if v == [] then [] else Without(v[..|v| - 1], c) + if v[|v| - 1] == c then [] else [v[|v| - 1]]
  }

  lemma {:induction false} WithoutJoin(a: Text, b: Text, c: int)
    ensures Without(a + b, c) == Without(a, c) + Without(b, c)
  {
    if b == [] {
      assert a + b == a;
    } else {
      assert (a + b)[..|a + b| - 1] == a + b[..|b| - 1];
      WithoutJoin(a, b[..|b| - 1], c);
    }
  }

  lemma {:induction false} OnlyDelimiter(d: Text, c: int)
    requires forall i :: 0 <= i < |d| ==> d[i] == c
    ensures Without(d, c) == []
  {
    if d != [] { OnlyDelimiter(d[..|d| - 1], c); }
  }

  /** Whatever is stripped, it is runes of the delimiter: all others stay, in order. */
  lemma {:induction false} StrippingKeepsTheRest(u: Classes, v: Text, d: Text, cursor: nat, c: int)
    requires d != [] && cursor <= |v| && forall i :: 0 <= i < |d| ==> d[i] == c
    ensures Without(Stripped(u, v, d, cursor), c) == Without(Cut(v, cursor, |v|), c)
    decreases |v| - cursor
  {
    hide Stripped, ValidPair, Without, Find, Cut;
    StripNext(u, v, d, cursor);
    var open := Find(v, cursor, d);
    if open < 0 { return; }
    var inner := open + |d|;
    var close := Find(v, inner, d);
    if close < 0 { return; }
    if ValidPair(u, v, open, close, |d|) {
      StrippingKeepsTheRest(u, v, d, close + |d|, c);
      PairKept(v, cursor, open, close, d, Stripped(u, v, d, close + |d|), c);
    } else {
      StrippingKeepsTheRest(u, v, d, inner, c);
      TailKept(v, cursor, inner, Stripped(u, v, d, inner), c);
    }
  }

  lemma TailKept(v: Text, cursor: nat, inner: nat, rest: Text, c: int)
    requires cursor <= inner <= |v| && Without(rest, c) == Without(Cut(v, inner, |v|), c)
    ensures Without(Cut(v, cursor, inner) + rest, c) == Without(Cut(v, cursor, |v|), c)
  {
    hide Without;
    WithoutJoin(Cut(v, cursor, inner), rest, c);
    WithoutJoin(Cut(v, cursor, inner), Cut(v, inner, |v|), c);
    assert Cut(v, cursor, |v|) == Cut(v, cursor, inner) + Cut(v, inner, |v|);
  }

  lemma PairKept(v: Text, cursor: nat, open: nat, close: nat, d: Text, rest: Text, c: int)
    requires cursor <= open && open + |d| <= close && StandsAt(v, open, d) && StandsAt(v, close, d)
    requires (forall i :: 0 <= i < |d| ==> d[i] == c) && Without(rest, c) == Without(Cut(v, close + |d|, |v|), c)
    ensures Without(Cut(v, cursor, open) + Cut(v, open + |d|, close) + rest, c) == Without(Cut(v, cursor, |v|), c)
  {
    OnlyDelimiter(d, c);
    CutFive(v, cursor, open, close, d);
    hide Without, Cut, StandsAt;
    var head, inner := Cut(v, cursor, open), Cut(v, open + |d|, close);
    JoinFive(head, d, inner, d, Cut(v, close + |d|, |v|), c);
    WithoutJoin(head + inner, rest, c);
    WithoutJoin(head, inner, c);
  }

  lemma CutFive(v: Text, cursor: nat, open: nat, close: nat, d: Text)
    requires cursor <= open && open + |d| <= close && StandsAt(v, open, d) && StandsAt(v, close, d)
    ensures Cut(v, cursor, |v|) == Cut(v, cursor, open) + d + Cut(v, open + |d|, close) + d + Cut(v, close + |d|, |v|)
  {
  }

  lemma JoinFive(a: Text, b: Text, e: Text, f: Text, g: Text, c: int)
    ensures Without(a + b + e + f + g, c) == Without(a, c) + Without(b, c) + Without(e, c) + Without(f, c)
      + Without(g, c)
  {
    WithoutJoin(a + b + e + f, g, c);
    WithoutJoin(a + b + e, f, c);
    WithoutJoin(a + b, e, c);
    WithoutJoin(a, b, c);
  }

  lemma StandsSays(v: Text, k: nat, d: Text)
    requires d != [] && StandsAt(v, k, d)
    ensures v[k] == d[0] && d[0] in v
  {
    assert v[k..k + |d|][0] == v[k];
  }

  lemma NothingToStrip(u: Classes, v: Text, d: Text)
    requires d != [] && d[0] !in v
    ensures Stripped(u, v, d, 0) == v
  {
    var open := Find(v, 0, d);
    if open >= 0 { StandsSays(v, open, d); }
  }

  /** The rune does not occur between two places. */
  predicate NoneIn(v: Text, from: nat, to: nat, c: int)
    requires to <= |v|
  {
    forall k :: from <= k < to ==> v[k] != c
  }

  lemma FindSkips(v: Text, from: nat, d: Text, at: nat)
    requires d != [] && from <= at && StandsAt(v, at, d) && NoneIn(v, from, at, d[0])
    ensures Find(v, from, d) == at
  {
    var i := Find(v, from, d);
    if i >= 0 { StandsSays(v, i, d); }
  }

  lemma StandsWithin(v: Text, k: nat, d: Text)
    requires StandsAt(v, k, d)
    ensures k + |d| <= |v|
  {
  }

  lemma EndIsBoundary(u: Classes)
    ensures Boundary(u, 0)
  {
  }

  /**
   * Emphasis proper: the first pair of delimiters, around text that does not touch them with a space,
   * between boundaries.
   */
  lemma EmphasisIsUnwrapped(u: Classes, v: Text, d: Text, open: nat, close: nat)
    requires d != [] && StandsAt(v, open, d) && StandsAt(v, close, d) && open + |d| < close
    requires NoneIn(v, 0, open, d[0]) && NoneIn(v, open + |d|, close, d[0])
    requires !u.space(v[open + |d|]) && !u.space(v[close - 1])
    requires open > 0 ==> v[open - 1] == 0 || u.separator(v[open - 1])
    requires close + |d| < |v| ==> v[close + |d|] == 0 || u.separator(v[close + |d|])
    ensures Stripped(u, v, d, 0) == Cut(v, 0, open) + Cut(v, open + |d|, close) + Stripped(u, v, d, close + |d|)
  {
    hide Stripped, Find, StandsAt, NoneIn, Cut;
    StandsWithin(v, close, d);
    EndIsBoundary(u);
    FindSkips(v, 0, d, open);
    FindSkips(v, open + |d|, d, close);
    StripNext(u, v, d, 0);
  }

  /**
   * Any other pair stays: one around nothing or next to a space, and one inside a word. Stripping goes
   * on behind the first delimiter.
   */
  lemma ImproperPairStays(u: Classes, v: Text, d: Text, open: nat, close: nat)
    requires d != [] && StandsAt(v, open, d) && StandsAt(v, close, d) && open + |d| <= close
    requires NoneIn(v, 0, open, d[0]) && NoneIn(v, open + |d|, close, d[0])
    requires
      || open + |d| == close || u.space(v[open + |d|]) || u.space(v[close - 1])
      || (open > 0 && v[open - 1] != 0 && !u.separator(v[open - 1]))
      || (close + |d| < |v| && v[close + |d|] != 0 && !u.separator(v[close + |d|]))
    ensures Stripped(u, v, d, 0) == Cut(v, 0, open + |d|) + Stripped(u, v, d, open + |d|)
  {
    hide Stripped, Find, StandsAt, NoneIn, Cut;
    StandsWithin(v, close, d);
    FindSkips(v, 0, d, open);
    FindSkips(v, open + |d|, d, close);
    StripNext(u, v, d, 0);
  }

  /** Without two delimiters nothing is stripped. */
  lemma LoneDelimiterStays(u: Classes, v: Text, d: Text, open: nat)
    requires d != [] && StandsAt(v, open, d) && NoneIn(v, 0, open, d[0]) && NoneIn(v, open + |d|, |v|, d[0])
    ensures Stripped(u, v, d, 0) == v
  {
    FindSkips(v, 0, d, open);
    var close := Find(v, open + |d|, d);
    if close >= 0 { StandsSays(v, close, d); }
    StripNext(u, v, d, 0);
    hide Stripped;
  }

  /** A backslash protects nothing but an escapable character. */
  lemma {:induction false} OtherBackslashesStay(v: Text, i: nat)
    requires i <= |v|
    requires forall k :: i <= k < |v| - 1 && v[k] == BACKSLASH ==> v[k + 1] !in ESCAPABLE
    ensures Protected(v, i) == v[i..]
    decreases |v| - i
  {
    if i < |v| { OtherBackslashesStay(v, i + 1); }
  }

  // ---------- the round trip ----------

  function EscapeAll(s: Text): Text {
    if s == [] then [] else (if s[0] in ESCAPABLE then [BACKSLASH, s[0]] else [s[0]]) + EscapeAll(s[1..])
  }

  function ProtectedRune(c: int): int {
    if c in ESCAPABLE then FIRST_PLACEHOLDER + IndexOf(c, 0) else c
  }

  /** Every escapable rune as its placeholder. */
  function Placeholders(s: Text): (p: Text)
    ensures |p| == |s|
  {
    seq(|s|, i requires 0 <= i < |s| => ProtectedRune(s[i]))
  }

  lemma EscapeFirst(s: Text)
    requires s != []
    ensures var e := EscapeAll(s);
      if s[0] in ESCAPABLE then |e| >= 2 && e[0] == BACKSLASH && e[1] == s[0] && e[2..] == EscapeAll(s[1..])
      else |e| >= 1 && e[0] == s[0] && e[1..] == EscapeAll(s[1..])
    ensures Placeholders(s) == [ProtectedRune(s[0])] + Placeholders(s[1..])
  {
    hide ESCAPABLE, IndexOf, ProtectedRune;
  }

  lemma {:induction false} EscapedIsProtected(v: Text, i: nat, s: Text)
    requires i <= |v| && v[i..] == EscapeAll(s)
    ensures Protected(v, i) == Placeholders(s)
    decreases |s|
  {
    if s != [] {
      EscapeFirst(s);
      BackslashEscapable();
      hide EscapeAll, Placeholders, ESCAPABLE, IndexOf;
      if s[0] in ESCAPABLE {
        assert v[i] == v[i..][0] && v[i + 1] == v[i..][1] && v[i + 2..] == v[i..][2..];
        EscapedIsProtected(v, i + 2, s[1..]);
      } else {
        assert v[i] == v[i..][0] && v[i + 1..] == v[i..][1..];
        EscapedIsProtected(v, i + 1, s[1..]);
      }
    }
  }

  lemma BackslashEscapable()
    ensures BACKSLASH in ESCAPABLE
  {
    assert ESCAPABLE[0] == BACKSLASH;
  }

  /** The five passes over the delimiters, in their order. */
  function StripAll(u: Classes, v: Text): Text {
    var bold := Stripped(u, Stripped(u, v, [0x2A, 0x2A], 0), [0x5F, 0x5F], 0);
    Stripped(u, Stripped(u, Stripped(u, bold, [0x2A], 0), [0x5F], 0), [0x7E, 0x7E], 0)
  }

  lemma PlaceholdersHaveNoDelimiters(s: Text, c: int)
    requires c in ESCAPABLE
    ensures c !in Placeholders(s)
  {
    forall i | 0 <= i < |s| ensures Placeholders(s)[i] != c {}
  }

  /**
   * Escaping every special character and running the passes gives the text back, exactly if the
   * text has none of the runes that serve as placeholders.
   */
  lemma EscapeRoundTrip(u: Classes, s: Text)
    ensures Restored(StripAll(u, Protected(EscapeAll(s), 0))) == s <==> forall c :: c in s ==> !IsPlaceholder(c)
  {
    EscapedIsProtected(EscapeAll(s), 0, s);
    NothingStripped(u, s);
    var v := Placeholders(s);
    forall i | 0 <= i < |s| ensures Restored(v)[i] == s[i] <==> !IsPlaceholder(s[i]) { RestoredRuneBack(s[i]); }
    hide Restored, StripAll, Protected, EscapeAll, Placeholders, IsPlaceholder;
    if forall c :: c in s ==> !IsPlaceholder(c) {
      forall i | 0 <= i < |s| ensures Restored(v)[i] == s[i] { assert s[i] in s; }
    } else {
      var c :| c in s && IsPlaceholder(c);
      var i :| 0 <= i < |s| && s[i] == c;
      assert Restored(v)[i] != s[i];
    }
  }

  lemma NothingStripped(u: Classes, s: Text)
    ensures StripAll(u, Placeholders(s)) == Placeholders(s)
  {
    var v := Placeholders(s);
    assert ESCAPABLE[2] == 0x2A && ESCAPABLE[14] == 0x5F && ESCAPABLE[16] == 0x7E;
    PlaceholdersHaveNoDelimiters(s, 0x2A);
    PlaceholdersHaveNoDelimiters(s, 0x5F);
    PlaceholdersHaveNoDelimiters(s, 0x7E);
    hide Stripped, Placeholders, ESCAPABLE;
    NothingToStrip(u, v, [0x2A, 0x2A]);
    NothingToStrip(u, v, [0x5F, 0x5F]);
    NothingToStrip(u, v, [0x2A]);
    NothingToStrip(u, v, [0x5F]);
    NothingToStrip(u, v, [0x7E, 0x7E]);
  }

  lemma RestoredRuneBack(c: int)
    ensures RestoredRune(ProtectedRune(c)) == c <==> !IsPlaceholder(c)
  {
    if IsPlaceholder(c) {
      var i := c - FIRST_PLACEHOLDER;
      assert ESCAPABLE[i] < FIRST_PLACEHOLDER;
    }
  }
}
