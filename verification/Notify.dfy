/** Escaping for MarkdownV2 and clamping an escaped message to a length. */
module Notify {

  const SPECIALS: string := "_*[]()~`>#+-=|{}.!\\"

  const SUFFIX: string := "\n\U{2026}(truncated)"

  // ---- Escaping -----------------------------------------------------------

  function EscapeChar(c: char): string { if c in SPECIALS then ['\\', c] else [c] }

  function Escape(text: string): string {
    if text == [] then [] else Escape(text[..|text| - 1]) + EscapeChar(text[|text| - 1])
  }

  method EscapeText(text: string) returns (out: string)
    ensures out == Escape(text)
  {
    out := [];
    for i := 0 to |text|
      invariant out == Escape(text[..i])
    {
      assert text[..i + 1][..i] == text[..i];
      if text[i] in SPECIALS { out := out + ['\\']; }
      out := out + [text[i]];
    }
    assert text[..|text|] == text;
  }

  /** Read back: a backslash stands for the character after it. */
  function Unescape(text: string): string {
    if text == [] then []
    else if text[0] != '\\' then [text[0]] + Unescape(text[1..])
    else if |text| == 1 then []
    else [text[1]] + Unescape(text[2..])
  }

  // ---- Whole tokens -------------------------------------------------------

  /** Plain characters and backslash pairs, nothing left over. */
  predicate Whole(text: string) {
    text == []
    || (text[0] != '\\' && Whole(text[1..]))
    || (text[0] == '\\' && |text| >= 2 && Whole(text[2..]))
  }

  /** Length of the token a non-empty whole text starts with. */
  function TokenLength(text: string): (n: nat)
    requires text != [] && Whole(text)
    ensures 1 <= n <= |text|
  {
    if text[0] == '\\' then 2 else 1
  }

  lemma {:induction false} WholeAppend(a: string, b: string)
    requires Whole(a)
    ensures Whole(a + b) == Whole(b)
    decreases |a|
  {
    if a == [] {
      assert a + b == b;
    } else {
      var n := TokenLength(a);
      assert (a + b)[0] == a[0] && (a + b)[n..] == a[n..] + b;
      WholeAppend(a[n..], b);
    }
  }

  lemma {:induction false} ReadToken(text: string, n: nat)
    requires 1 <= n <= |text| && n == (if text[0] == '\\' then 2 else 1)
    ensures Unescape(text) == [text[n - 1]] + Unescape(text[n..])
  {}

  lemma Regrouped(a: string, b: string, c: string)
    ensures a + (b + c) == (a + b) + c
  {}

  lemma {:induction false} UnescapeAppend(a: string, b: string)
    requires Whole(a)
    ensures Unescape(a + b) == Unescape(a) + Unescape(b)
    decreases |a|
  {
    if a == [] {
      assert a + b == b;
    } else {
      var n := TokenLength(a);
      assert (a + b)[0] == a[0] && (a + b)[n..] == a[n..] + b && (a + b)[n - 1] == a[n - 1];
      UnescapeAppend(a[n..], b);
      ReadToken(a, n);
      ReadToken(a + b, n);
      hide Unescape, TokenLength;
      Regrouped([a[n - 1]], Unescape(a[n..]), Unescape(b));
    }
  }

  /** Escaped text is made of whole tokens and reads back as what was written. */
  lemma {:induction false} EscapeRoundTrips(text: string)
    ensures Whole(Escape(text)) && Unescape(Escape(text)) == text
  {
    if text != [] {
      var front, c := text[..|text| - 1], text[|text| - 1];
      EscapeRoundTrips(front);
      WholeAppend(Escape(front), EscapeChar(c));
      UnescapeAppend(Escape(front), EscapeChar(c));
      OneToken(c);
      assert text == front + [c];
    }
  }

  lemma OneToken(c: char)
    ensures Whole(EscapeChar(c)) && Unescape(EscapeChar(c)) == [c]
  {
    var t := EscapeChar(c);
    if c in SPECIALS { assert t[2..] == []; } else { assert SPECIALS[|SPECIALS| - 1] == '\\'; assert t[1..] == []; }
  }

  // ---- Truncation ---------------------------------------------------------

  /** Python's `text[:n]`, a negative bound counting from the end. */
  function Prefix(text: string, n: int): string {
    if n >= |text| then text
    else if n >= 0 then text[..n]
    else if |text| + n >= 0 then text[..|text| + n]
    else []
  }

  function TrailingBackslashes(text: string): nat {
    if text == [] || text[|text| - 1] != '\\' then 0 else 1 + TrailingBackslashes(text[..|text| - 1])
  }

  /** The part of a long text that is kept: a cut that never leaves half an escape behind. */
  function Head(text: string, limit: int): string {
    var head := Prefix(text, limit - |SUFFIX|);
    if TrailingBackslashes(head) % 2 == 1 && head != [] then head[..|head| - 1] else head
  }

  function Truncate(text: string, limit: int): string {
    if |text| <= limit then text else Head(text, limit) + SUFFIX
  }

  /** A leading token never changes whether the trailing run of backslashes is even. */
  lemma {:induction false} TokenKeepsParity(token: string, rest: string)
    requires Whole(token) && token != [] && |token| == TokenLength(token)
    ensures TrailingBackslashes(token + rest) % 2 == TrailingBackslashes(rest) % 2
    decreases |rest|
  {
    if rest == [] {
      assert token + rest == token;
      if |token| == 2 { assert token[..1] == ['\\'] && token[..1][..0] == []; }
    } else {
      var last := |rest| - 1;
      assert (token + rest)[..|token + rest| - 1] == token + rest[..last];
      TokenKeepsParity(token, rest[..last]);
    }
  }

  /** A prefix of whole text ends between tokens exactly when its trailing run of backslashes is even. */
  lemma {:induction false} EvenRunEndsBetweenTokens(text: string, n: nat)
    requires Whole(text) && n <= |text|
    ensures Whole(text[..n]) <==> TrailingBackslashes(text[..n]) % 2 == 0
    decreases |text|
  {
    if n == 0 {
    } else if n < TokenLength(text) {
      assert text[..1] == ['\\'] && text[..1][..0] == [];
    } else {
      var step := TokenLength(text);
      var token, rest := text[..step], text[step..];
      assert text[..n] == token + rest[..n - step];
      assert token[step..] == [] && token[0] == text[0];
      EvenRunEndsBetweenTokens(rest, n - step);
      TokenKeepsParity(token, rest[..n - step]);
      WholeAppend(token, rest[..n - step]);
    }
  }

  /** What is kept of whole text is whole, is a prefix, and is as long as a prefix of whole tokens can be. */
  lemma {:induction false} HeadEndsBetweenTokens(text: string, limit: int)
    requires Whole(text)
    ensures var head := Head(text, limit);
            head <= text && Whole(head) && |head| <= |Prefix(text, limit - |SUFFIX|)|
    ensures forall k :: |Head(text, limit)| < k <= |Prefix(text, limit - |SUFFIX|)| ==> !Whole(text[..k])
  {
    var head := Prefix(text, limit - |SUFFIX|);
    assert head == text[..|head|];
    EvenRunEndsBetweenTokens(text, |head|);
    if TrailingBackslashes(head) % 2 == 1 {
      assert head[..|head| - 1] == text[..|head| - 1];
      EvenRunEndsBetweenTokens(text, |head| - 1);
    }
  }

  /** The clamp holds exactly when the text already fits or the limit leaves room for the marker. */
  lemma TruncateFitsIff(text: string, limit: int)
    ensures |Truncate(text, limit)| <= limit <==> |text| <= limit || limit >= |SUFFIX|
  {}

  /** Cutting an escaped message never changes what the kept part says: it reads back as a prefix of the original. */
  lemma {:induction false} TruncatedEscapeReadsBack(text: string, limit: int)
    requires |Escape(text)| > limit
    ensures Whole(Head(Escape(text), limit))
    ensures Unescape(Head(Escape(text), limit)) <= text
    ensures Truncate(Escape(text), limit) == Head(Escape(text), limit) + SUFFIX
  {
    hide Head, Whole, Unescape, Escape, Prefix;
    var all := Escape(text);
    EscapeRoundTrips(text);
    HeadEndsBetweenTokens(all, limit);
    var head := Head(all, limit);
    var tail := all[|head|..];
    assert all == head + tail;
    UnescapeAppend(head, tail);
  }

  /** The marker itself carries bare parentheses, so no cut message is fully escaped text. */
  lemma MarkerIsNotEscaped(text: string, limit: int)
    requires |text| > limit
    ensures '(' in Truncate(text, limit) && Truncate(text, limit)[|Truncate(text, limit)| - 1] == ')'
  {
    var cut := Truncate(text, limit);
    assert cut[|cut| - |SUFFIX| + 2] == SUFFIX[2] == '(';
    assert cut[|cut| - 1] == SUFFIX[|SUFFIX| - 1] == ')';
  }

  /** Exactly the characters MarkdownV2 gives a meaning to are escaped, the backslash itself among them. */
  lemma SpecialsAreEscaped(c: char)
    ensures EscapeChar(c) == ['\\', c]
       <==> c in {'_', '*', '[', ']', '(', ')', '~', '`', '>', '#', '+', '-', '=', '|', '{', '}', '.', '!', '\\'}
    ensures EscapeChar(c) == ['\\', c] || EscapeChar(c) == [c]
  {
    assert SPECIALS == ['_', '*', '[', ']', '(', ')', '~', '`', '>', '#', '+', '-', '=', '|', '{', '}', '.', '!', '\\'];
  }
}
