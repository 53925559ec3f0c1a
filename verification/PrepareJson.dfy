/**
 `prepare_json`: the one-pass rewrite of JSON text before parsing. A number given for one of the
 listed keys becomes a string of the same characters, and a NUL escape inside a string is refused.

 The rewrite is specified on the tokens of the text: string literals and single other characters.
 */
module PrepareJson {
  import opened Common

  /**
   `Str` is a terminated string literal with the raw text between its quotes, `Open` one that the
   text ends in, `Other` any character outside strings. `Added` is a string that the rewrite made.
   */
  datatype Token = Other(c: char) | Str(raw: string) | Open(raw: string) | Added(raw: string)

  // ---- Tokens ----

  /** The length of a string body: up to the first quote that no backslash escapes, or the end. */
  function BodyLength(t: string): (n: nat)
    ensures n <= |t| && (n < |t| ==> t[n] == '"')
  {
    if t == [] || t[0] == '"' then 0
    else if t[0] == '\\' && |t| > 1 then 2 + BodyLength(t[2..])
    else 1 + BodyLength(t[1..])
  }

  function Lex(s: string): (tokens: seq<Token>) {
    if s == [] then []
    else if s[0] != '"' then [Other(s[0])] + Lex(s[1..])
    else
      var n := BodyLength(s[1..]);
      if n == |s| - 1 then [Open(s[1..])] else [Str(s[1..n + 1])] + Lex(s[n + 2..])
  }

  function Render(token: Token): (s: string) {
    match token
    case Other(c) => [c]
    case Str(raw) => "\"" + raw + "\""
    case Added(raw) => "\"" + raw + "\""
    case Open(raw) => "\"" + raw
  }

  function Text(tokens: seq<Token>): (s: string) {
    if tokens == [] then [] else Render(tokens[0]) + Text(tokens[1..])
  }

  // ---- The rewrite ----

  const KEYS: seq<string> := ["X509SerialNumber", "MeterReading", "TMeter", "EVSETimeStamp"]

  predicate IsKey(token: Token) { token.Str? && token.raw in KEYS }

  predicate IsGap(c: char) { c == ' ' || c == '\t' || c == '\n' || c == '\r' || c == ':' }

  predicate StartsNumber(c: char) { c == '-' || '0' <= c <= '9' }

  predicate InNumber(c: char) { StartsNumber(c) || c == '+' || c == '.' || c == 'e' || c == 'E' }

  /** The number of leading characters that may belong to a number. */
  function RunLength(tokens: seq<Token>): (n: nat)
    ensures n <= |tokens|
    ensures forall i :: 0 <= i < n ==> tokens[i].Other? && InNumber(tokens[i].c)
    ensures n < |tokens| ==> !(tokens[n].Other? && InNumber(tokens[n].c))
  {
    if tokens != [] && tokens[0].Other? && InNumber(tokens[0].c) then 1 + RunLength(tokens[1..]) else 0
  }

  function Chars(tokens: seq<Token>): (s: string)
    requires forall i :: 0 <= i < |tokens| ==> tokens[i].Other?
    ensures |s| == |tokens| && forall i :: 0 <= i < |s| ==> s[i] == tokens[i].c
  {
    if tokens == [] then [] else [tokens[0].c] + Chars(tokens[1..])
  }

  /** Quotes the number, if any, that follows a listed key. */
  function Requote(tokens: seq<Token>): (r: seq<Token>)
    ensures r == [] <==> tokens == []
    decreases |tokens|, 0
  {
    if tokens == [] then []
    else if IsKey(tokens[0]) then [tokens[0]] + AfterKey(tokens[1..])
    else [tokens[0]] + Requote(tokens[1..])
  }

  function AfterKey(tokens: seq<Token>): (r: seq<Token>)
    ensures r == [] <==> tokens == []
    decreases |tokens|, 1
  {
    if tokens == [] || !tokens[0].Other? then Requote(tokens)
    else if IsGap(tokens[0].c) then [tokens[0]] + AfterKey(tokens[1..])
    else if StartsNumber(tokens[0].c) then
      var n := RunLength(tokens);
      [Added(Chars(tokens[..n]))] + Requote(tokens[n..])
    else Requote(tokens)
  }

  const NUL_ESCAPE: string := "\\u0000"

  /** A NUL escape whose backslash is not itself escaped. */
  predicate HasNul(raw: string) {
    if raw == [] then false
    else if NUL_ESCAPE <= raw then true
    else if raw[0] == '\\' && |raw| > 1 then HasNul(raw[2..])
    else HasNul(raw[1..])
  }

  predicate HoldsNul(token: Token) { (token.Str? || token.Open?) && HasNul(token.raw) }

  predicate Refused(tokens: seq<Token>) {
    tokens != [] && (HoldsNul(tokens[0]) || Refused(tokens[1..]))
  }

  /** What `prepare_json` is meant to compute. */
  function Prepared(s: string): (r: Option<string>) {
    if Refused(Lex(s)) then None else Some(Text(Requote(Lex(s))))
  }

  // ---- Lexing and printing are inverse ----

  lemma TextCons(token: Token, tokens: seq<Token>)
    ensures Text([token] + tokens) == Render(token) + Text(tokens)
  {}

  lemma {:induction false} TextOfLex(s: string)
    ensures Text(Lex(s)) == s
  {
    if s == [] {
    } else if s[0] != '"' {
      TextOfLex(s[1..]);
      TextCons(Other(s[0]), Lex(s[1..]));
      assert s == [s[0]] + s[1..];
    } else {
      var n := BodyLength(s[1..]);
      if n == |s| - 1 {
        TextCons(Open(s[1..]), []);
        assert [Open(s[1..])] + [] == [Open(s[1..])];
        assert s == "\"" + s[1..];
      } else {
        TextOfLex(s[n + 2..]);
        TextCons(Str(s[1..n + 1]), Lex(s[n + 2..]));
        StringParts(s, n);
      }
    }
  }

  lemma StringParts(s: string, n: nat)
    requires n + 1 < |s| && s[0] == '"' && n == BodyLength(s[1..])
    ensures s == Render(Str(s[1..n + 1])) + s[n + 2..]
  {}

  /** A body that a quote would end: no bare quote and no dangling backslash. */
  predicate Closed(raw: string) {
    if raw == [] then true
    else if raw[0] == '"' then false
    else if raw[0] == '\\' then |raw| > 1 && Closed(raw[2..])
    else Closed(raw[1..])
  }

  lemma {:induction false} BodyIsClosed(t: string)
    requires BodyLength(t) < |t|
    ensures Closed(t[..BodyLength(t)])
  {
    if t[0] == '"' {
    } else if t[0] == '\\' && |t| > 1 {
      BodyIsClosed(t[2..]);
      assert t[..BodyLength(t)][2..] == t[2..][..BodyLength(t[2..])];
    } else {
      BodyIsClosed(t[1..]);
      assert t[..BodyLength(t)][1..] == t[1..][..BodyLength(t[1..])];
    }
  }

  lemma {:induction false} ClosedIsBody(raw: string, rest: string)
    requires Closed(raw)
    ensures BodyLength(raw + "\"" + rest) == |raw|
  {
    var t := raw + "\"" + rest;
    if raw == [] {
      assert t[0] == '"';
    } else if raw[0] == '\\' {
      assert t[0] == raw[0] && |t| > 1;
      ClosedIsBody(raw[2..], rest);
      assert t[2..] == raw[2..] + "\"" + rest;
    } else {
      assert t[0] == raw[0];
      ClosedIsBody(raw[1..], rest);
      assert t[1..] == raw[1..] + "\"" + rest;
    }
  }

  lemma {:induction false} PlainIsClosed(raw: string)
    requires forall i :: 0 <= i < |raw| ==> raw[i] != '"' && raw[i] != '\\'
    ensures Closed(raw)
  {
    if raw != [] { PlainIsClosed(raw[1..]); }
  }

  predicate GoodToken(token: Token, last: bool) {
    match token
    case Other(c) => c != '"'
    case Str(raw) => Closed(raw)
    case Open(raw) => last && BodyLength(raw) == |raw|
    case Added(raw) => Closed(raw)
  }

  /** Token sequences that lexing can produce, apart from the mark on rewritten strings. */
  predicate WellFormed(tokens: seq<Token>) {
    forall i :: 0 <= i < |tokens| ==> GoodToken(tokens[i], i == |tokens| - 1)
  }

  lemma WellFormedCons(token: Token, tokens: seq<Token>)
    requires GoodToken(token, tokens == []) && WellFormed(tokens)
    ensures WellFormed([token] + tokens)
  {}

  lemma {:induction false} LexWellFormed(s: string)
    ensures WellFormed(Lex(s)) && forall i :: 0 <= i < |Lex(s)| ==> !Lex(s)[i].Added?
  {
    if s == [] {
    } else if s[0] != '"' {
      LexWellFormed(s[1..]);
    } else {
      var n := BodyLength(s[1..]);
      if n < |s| - 1 {
        BodyIsClosed(s[1..]);
        assert s[1..][..n] == s[1..n + 1];
        LexWellFormed(s[n + 2..]);
      }
    }
  }

  /** The rewritten strings are ordinary strings to whoever reads the text next. */
  function AsLexed(tokens: seq<Token>): (r: seq<Token>)
    ensures |r| == |tokens|
    ensures forall i :: 0 <= i < |r| ==> r[i] == if tokens[i].Added? then Str(tokens[i].raw) else tokens[i]
  {
    seq(|tokens|, i requires 0 <= i < |tokens| => if tokens[i].Added? then Str(tokens[i].raw) else tokens[i])
  }

  lemma {:induction false} LexOfText(tokens: seq<Token>)
    requires WellFormed(tokens)
    ensures Lex(Text(tokens)) == AsLexed(tokens)
  {
    hide BodyLength, Closed, Render;
    if tokens != [] {
      var rest := tokens[1..];
      assert WellFormed(rest);
      LexOfText(rest);
      assert AsLexed(tokens) == [AsLexed(tokens)[0]] + AsLexed(rest);
      FirstToken(tokens[0], Text(rest));
    }
  }

  lemma FirstToken(token: Token, rest: string)
    requires GoodToken(token, rest == [])
    ensures Lex(Render(token) + rest) == [if token.Added? then Str(token.raw) else token] + Lex(rest)
  {
    var s := Render(token) + rest;
    match token
    case Other(c) =>
      assert s[1..] == rest;
    case Open(raw) =>
      assert s[1..] == raw;
    case Str(raw) =>
      LexString(raw, rest);
    case Added(raw) =>
      LexString(raw, rest);
  }

  lemma LexString(raw: string, rest: string)
    requires Closed(raw)
    ensures Lex(("\"" + raw + "\"") + rest) == [Str(raw)] + Lex(rest)
  {
    var s := ("\"" + raw + "\"") + rest;
    ClosedIsBody(raw, rest);
    hide BodyLength, Closed;
    assert s[1..] == raw + "\"" + rest;
    assert s[1..|raw| + 1] == raw && s[|raw| + 2..] == rest;
  }

  // ---- Properties of the rewrite ----

  ghost function Rewritten(tokens: seq<Token>, afterKey: bool): (r: seq<Token>) {
    if afterKey then AfterKey(tokens) else Requote(tokens)
  }

  /** A number right after a key is consumed as one token, everything else token by token. */
  ghost predicate NumberFollows(token: Token, afterKey: bool) {
    afterKey && token.Other? && StartsNumber(token.c)
  }

  ghost function Consumed(tokens: seq<Token>, afterKey: bool): (n: nat)
    requires tokens != []
    ensures 1 <= n <= |tokens|
  {
    if NumberFollows(tokens[0], afterKey) then RunLength(tokens) else 1
  }

  ghost function FirstWritten(tokens: seq<Token>, afterKey: bool): (token: Token)
    requires tokens != []
  {
    if NumberFollows(tokens[0], afterKey) then Added(Chars(tokens[..RunLength(tokens)])) else tokens[0]
  }

  ghost predicate KeyAfter(token: Token, afterKey: bool) {
    IsKey(token) || (afterKey && token.Other? && IsGap(token.c))
  }

  /** Both halves of the rewrite in one step. */
  lemma RewrittenStep(tokens: seq<Token>, afterKey: bool)
    requires tokens != []
    ensures Rewritten(tokens, afterKey) ==
            [FirstWritten(tokens, afterKey)] +
            Rewritten(tokens[Consumed(tokens, afterKey)..], KeyAfter(tokens[0], afterKey))
  {
    assert Requote(tokens) == [tokens[0]] + Rewritten(tokens[1..], IsKey(tokens[0]));
  }

  /** Deleting the quotes that were added turns a rewritten string into its characters again. */
  function Unquoted(tokens: seq<Token>): (r: seq<Token>) {
    if tokens == [] then []
    else (if tokens[0].Added? then seq(|tokens[0].raw|, i requires 0 <= i < |tokens[0].raw| => Other(tokens[0].raw[i]))
          else [tokens[0]]) + Unquoted(tokens[1..])
  }

  lemma {:induction false} OnlyQuotesAdded(tokens: seq<Token>, afterKey: bool)
    requires forall i :: 0 <= i < |tokens| ==> !tokens[i].Added?
    ensures Unquoted(Rewritten(tokens, afterKey)) == tokens
  {
    hide Requote, AfterKey;
    if tokens != [] {
      RewrittenStep(tokens, afterKey);
      var n := Consumed(tokens, afterKey);
      var token := FirstWritten(tokens, afterKey);
      OnlyQuotesAdded(tokens[n..], KeyAfter(tokens[0], afterKey));
      assert Rewritten(tokens, afterKey)[1..] == Rewritten(tokens[n..], KeyAfter(tokens[0], afterKey));
      assert Unquoted([token]) == tokens[..n];
    }
  }

  /** Deleting the added quotes from the output gives the input text. */
  lemma DeletingAddedQuotesRestores(s: string)
    requires Prepared(s).Some?
    ensures Prepared(s).value == Text(Requote(Lex(s))) && Text(Unquoted(Requote(Lex(s)))) == s
  {
    LexWellFormed(s);
    OnlyQuotesAdded(Lex(s), false);
    TextOfLex(s);
  }

  lemma {:induction false} RequoteWellFormed(tokens: seq<Token>, afterKey: bool)
    requires WellFormed(tokens)
    ensures WellFormed(Rewritten(tokens, afterKey)) && (Rewritten(tokens, afterKey) == [] <==> tokens == [])
  {
    if tokens != [] {
      RewrittenStep(tokens, afterKey);
      var n, token := Consumed(tokens, afterKey), FirstWritten(tokens, afterKey);
      assert WellFormed(tokens[n..]);
      RequoteWellFormed(tokens[n..], KeyAfter(tokens[0], afterKey));
      if token.Added? && NumberFollows(tokens[0], afterKey) { PlainIsClosed(token.raw); }
      WellFormedCons(token, Rewritten(tokens[n..], KeyAfter(tokens[0], afterKey)));
    }
  }

  /** A rewritten string directly follows a listed key, up to blanks and colons. */
  ghost predicate FollowsKey(tokens: seq<Token>, i: nat)
    requires i <= |tokens|
  {
    exists k :: 0 <= k < i && IsKey(tokens[k]) && GapBetween(tokens, k + 1, i)
  }

  ghost predicate GapBetween(tokens: seq<Token>, from: nat, to: nat)
    requires to <= |tokens|
  {
    forall j :: from <= j < to ==> tokens[j].Other? && IsGap(tokens[j].c)
  }

  /** A made string follows a listed key and started as a number; a bare number follows none. */
  ghost predicate RewrittenRight(r: seq<Token>, i: nat)
    requires i < |r|
  {
    && (r[i].Added? ==> FollowsKey(r, i) && r[i].raw != "" && StartsNumber(r[i].raw[0]))
    && (r[i].Other? && StartsNumber(r[i].c) ==> !FollowsKey(r, i))
  }

  ghost predicate RightFrom(r: seq<Token>, from: nat) {
    forall i :: from <= i < |r| ==> RewrittenRight(r, i)
  }

  /**
   In the rewritten tokens a string was made exactly where a number follows a listed key, and no
   number after a listed key is left bare. `pre` is what was written before.
   */
  lemma {:induction false} RewrittenExactlyAfterKeys(pre: seq<Token>, tokens: seq<Token>, afterKey: bool)
    requires forall i :: 0 <= i < |tokens| ==> !tokens[i].Added?
    requires afterKey <==> FollowsKey(pre, |pre|)
    ensures RightFrom(pre + Rewritten(tokens, afterKey), |pre|)
    decreases |tokens|, afterKey
  {
    if tokens != [] {
      RewrittenStep(tokens, afterKey);
      var n := Consumed(tokens, afterKey);
      var token, key := FirstWritten(tokens, afterKey), KeyAfter(tokens[0], afterKey);
      Extend(pre, token, Rewritten(tokens[n..], key));
      RewrittenExactlyAfterKeys(pre + [token], tokens[n..], key);
      assert RewrittenRight(pre + Rewritten(tokens, afterKey), |pre|);
    }
  }

  lemma Extend(pre: seq<Token>, token: Token, rest: seq<Token>)
    ensures pre + ([token] + rest) == (pre + [token]) + rest
    ensures FollowsKey(pre + [token], |pre| + 1) <==>
              IsKey(token) || (FollowsKey(pre, |pre|) && token.Other? && IsGap(token.c))
    ensures FollowsKey(pre + ([token] + rest), |pre|) <==> FollowsKey(pre, |pre|)
  {
    FollowsSnoc(pre, token);
    FollowsPrefix(pre, [token] + rest);
    hide FollowsKey;
  }

  lemma FollowsSnoc(pre: seq<Token>, token: Token)
    ensures FollowsKey(pre + [token], |pre| + 1) <==>
              IsKey(token) || (FollowsKey(pre, |pre|) && token.Other? && IsGap(token.c))
  {
    hide IsKey, IsGap;
    var t := pre + [token];
    if FollowsKey(pre, |pre|) && token.Other? && IsGap(token.c) {
      var k :| 0 <= k < |pre| && IsKey(pre[k]) && GapBetween(pre, k + 1, |pre|);
      assert IsKey(t[k]) && GapBetween(t, k + 1, |t|);
    }
    if IsKey(token) {
      assert IsKey(t[|pre|]) && GapBetween(t, |pre| + 1, |t|);
    }
    if FollowsKey(t, |t|) && !IsKey(token) {
      var k :| 0 <= k < |t| && IsKey(t[k]) && GapBetween(t, k + 1, |t|);
      assert t[|pre|].Other? && IsGap(t[|pre|].c);
      assert IsKey(pre[k]);
      assert forall j :: k + 1 <= j < |pre| ==> pre[j] == t[j];
      assert GapBetween(pre, k + 1, |pre|);
    }
  }

  lemma FollowsPrefix(pre: seq<Token>, rest: seq<Token>)
    ensures FollowsKey(pre + rest, |pre|) <==> FollowsKey(pre, |pre|)
  {
    hide IsKey, IsGap;
    var u := pre + rest;
    if k :| 0 <= k < |pre| && IsKey(u[k]) && GapBetween(u, k + 1, |pre|) {
      assert IsKey(pre[k]);
      assert forall j :: k + 1 <= j < |pre| ==> pre[j] == u[j];
      assert GapBetween(pre, k + 1, |pre|);
    }
    if k :| 0 <= k < |pre| && IsKey(pre[k]) && GapBetween(pre, k + 1, |pre|) {
      assert IsKey(u[k]) && GapBetween(u, k + 1, |pre|);
    }
  }

  /** Rewriting twice changes nothing more. */
  lemma {:induction false} RequoteTwice(tokens: seq<Token>, afterKey: bool)
    requires forall i :: 0 <= i < |tokens| ==> !tokens[i].Added?
    ensures Rewritten(AsLexed(Rewritten(tokens, afterKey)), afterKey) == AsLexed(Rewritten(tokens, afterKey))
  {
    hide Rewritten, AsLexed, RunLength, Chars, IsKey, IsGap;
    if tokens == [] {
      NothingWritten(afterKey);
    } else {
      RewrittenStep(tokens, afterKey);
      var n, key := Consumed(tokens, afterKey), KeyAfter(tokens[0], afterKey);
      var once, tail := AsLexed(Rewritten(tokens, afterKey)), AsLexed(Rewritten(tokens[n..], key));
      AsLexedCons(FirstWritten(tokens, afterKey), Rewritten(tokens[n..], key));
      RequoteTwice(tokens[n..], key);
      if NumberFollows(tokens[0], afterKey) { NumberRun(tokens); }
      assert once[1..] == tail;
      RewrittenStep(once, afterKey);
    }
  }

  lemma NumberIsNoKey(raw: string)
    requires raw != "" && StartsNumber(raw[0])
    ensures !IsKey(Str(raw))
  {}

  lemma {:induction false} PlainHasNoNul(raw: string)
    requires forall i :: 0 <= i < |raw| ==> raw[i] != '\\'
    ensures !HasNul(raw)
  {
    assert NUL_ESCAPE[0] == '\\';
    if raw != [] { PlainHasNoNul(raw[1..]); }
  }

  lemma {:induction false} RequoteKeepsRefusal(tokens: seq<Token>, afterKey: bool)
    requires forall i :: 0 <= i < |tokens| ==> !tokens[i].Added?
    ensures Refused(AsLexed(Rewritten(tokens, afterKey))) <==> Refused(tokens)
  {
    hide Rewritten, AsLexed, Refused, HasNul, RunLength, Chars, IsKey, IsGap;
    if tokens == [] {
      NothingWritten(afterKey);
    } else {
      RewrittenStep(tokens, afterKey);
      var n, key := Consumed(tokens, afterKey), KeyAfter(tokens[0], afterKey);
      var once, tail := AsLexed(Rewritten(tokens, afterKey)), AsLexed(Rewritten(tokens[n..], key));
      AsLexedCons(FirstWritten(tokens, afterKey), Rewritten(tokens[n..], key));
      RequoteKeepsRefusal(tokens[n..], key);
      RefusedCons(once[0], tail);
      if NumberFollows(tokens[0], afterKey) {
        NumberRun(tokens);
        RefusedDrop(tokens, n);
      } else {
        assert tokens == [tokens[0]] + tokens[1..];
        RefusedCons(tokens[0], tokens[1..]);
      }
    }
  }

  lemma NothingWritten(afterKey: bool)
    ensures Rewritten([], afterKey) == AsLexed([]) == [] && !Refused([])
  {}

  lemma AsLexedCons(token: Token, tokens: seq<Token>)
    ensures AsLexed([token] + tokens) == [if token.Added? then Str(token.raw) else token] + AsLexed(tokens)
  {}

  /** A number has no backslash and does not spell a key. */
  lemma NumberRun(tokens: seq<Token>)
    requires tokens != [] && tokens[0].Other? && StartsNumber(tokens[0].c)
    ensures var n := RunLength(tokens);
            var text := Chars(tokens[..n]);
            && (forall i :: 0 <= i < n ==> tokens[i].Other?)
            && !HasNul(text) && !IsKey(Str(text)) && !KeyAfter(tokens[0], true)
  {
    var text := Chars(tokens[..RunLength(tokens)]);
    PlainHasNoNul(text);
    NumberIsNoKey(text);
  }

  lemma RefusedCons(token: Token, tokens: seq<Token>)
    ensures Refused([token] + tokens) <==> HoldsNul(token) || Refused(tokens)
  {}

  lemma {:induction false} RefusedDrop(tokens: seq<Token>, n: nat)
    requires n <= |tokens| && forall i :: 0 <= i < n ==> tokens[i].Other?
    ensures Refused(tokens[n..]) <==> Refused(tokens)
  {
    if n == 0 {
      assert tokens[0..] == tokens;
    } else {
      RefusedDrop(tokens[1..], n - 1);
      assert tokens[1..][n - 1..] == tokens[n..];
    }
  }

  /** The output is accepted again and is its own output. */
  lemma PreparedIdempotent(s: string)
    requires Prepared(s).Some?
    ensures Prepared(Prepared(s).value) == Prepared(s)
  {
    var tokens := Requote(Lex(s));
    LexWellFormed(s);
    RequoteWellFormed(Lex(s), false);
    LexOfText(tokens);
    RequoteTwice(Lex(s), false);
    RequoteKeepsRefusal(Lex(s), false);
    SameText(tokens);
  }

  lemma {:induction false} SameText(tokens: seq<Token>)
    ensures Text(AsLexed(tokens)) == Text(tokens)
  {
    if tokens != [] {
      SameText(tokens[1..]);
      assert AsLexed(tokens)[1..] == AsLexed(tokens[1..]);
    }
  }

  /** A reader of the output finds the input's tokens with the numbers turned into strings. */
  lemma OutputTokens(s: string)
    requires Prepared(s).Some?
    ensures Lex(Prepared(s).value) == AsLexed(Requote(Lex(s)))
  {
    LexWellFormed(s);
    RequoteWellFormed(Lex(s), false);
    LexOfText(Requote(Lex(s)));
  }
}
