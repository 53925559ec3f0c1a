/**
 The scanner of `prepare_json` at the level of characters, its refinement of the rewrite on
 tokens, and the loops that fill the output buffer.
 */
module PrepareScan {
  import opened Common
  import opened PrepareJson

  // ---- One round of the scanner, as a function ----

  function GapLength(s: string): (n: nat)
    ensures n <= |s| && (forall i :: 0 <= i < n ==> IsGap(s[i])) && (n < |s| ==> !IsGap(s[n]))
  {
    if s != [] && IsGap(s[0]) then 1 + GapLength(s[1..]) else 0
  }

  function NumberLength(s: string): (n: nat)
    ensures n <= |s| && (forall i :: 0 <= i < n ==> InNumber(s[i])) && (n < |s| ==> !InNumber(s[n]))
  {
    if s != [] && InNumber(s[0]) then 1 + NumberLength(s[1..]) else 0
  }

  function Quoted(raw: string): (s: string)
    ensures |s| == |raw| + 2
  { "\"" + raw + "\"" }

  predicate StartsWithKey(s: string) {
    exists i :: 0 <= i < |KEYS| && Quoted(KEYS[i]) <= s
  }

  /** The end of the string literal that starts the text. */
  function StringEnd(s: string): (n: nat)
    requires s != [] && s[0] == '"'
    ensures 1 <= n <= |s|
  {
    var n := BodyLength(s[1..]);
    if n == |s| - 1 then |s| else n + 2
  }

  /** The first character after a leading literal, blanks and colons. */
  function ValueStart(s: string): (g: nat)
    requires s != [] && s[0] == '"'
    ensures StringEnd(s) <= g <= |s| && (g < |s| ==> !IsGap(s[g]))
  {
    StringEnd(s) + GapLength(s[StringEnd(s)..])
  }

  /** A string literal holds a NUL escape. */
  predicate LiteralHasNul(s: string)
    requires s != [] && s[0] == '"'
  {
    HasNul(s[1..BodyLength(s[1..]) + 1])
  }

  /** What one round of the main loop consumes and writes. */
  datatype Round = Round(read: nat, text: string)

  function NextRound(s: string): (r: Round)
    requires s != []
    ensures 1 <= r.read <= |s|
  {
    if s[0] != '"' then Round(1, s[..1])
    else
      var k := StringEnd(s);
      if !StartsWithKey(s) then Round(k, s[..k])
      else
        var g := ValueStart(s);
        if g < |s| && StartsNumber(s[g]) then
          var n := NumberLength(s[g..]);
          Round(g + n, s[..g] + Quoted(s[g..g + n]))
        else Round(g, s[..g])
  }

  predicate RefusedHere(s: string) { s != [] && s[0] == '"' && !StartsWithKey(s) && LiteralHasNul(s) }

  function Scan(s: string): (r: Option<string>) {
    if s == [] then Some([])
    else if RefusedHere(s) then None
    else Prepend(NextRound(s).text, Scan(s[NextRound(s).read..]))
  }

  function Prepend(front: string, r: Option<string>): (t: Option<string>) {
    if r.None? then None else Some(front + r.value)
  }

  // ---- The scanner refines the rewrite on tokens ----

  lemma LexLiteral(s: string)
    requires s != [] && s[0] == '"'
    ensures Lex(s) == [Lex(s)[0]] + Lex(s[StringEnd(s)..])
    ensures Render(Lex(s)[0]) == s[..StringEnd(s)]
    ensures HoldsNul(Lex(s)[0]) <==> LiteralHasNul(s)
  {
    var n := BodyLength(s[1..]);
    if n < |s| - 1 { StringParts(s, n); }
  }

  lemma PlainKey(key: string)
    requires key in KEYS
    ensures |key| >= 6 && forall i :: 0 <= i < |key| ==> key[i] != '"' && key[i] != '\\'
  {}

  /** A text that starts with a listed key in quotes has it as its first literal. */
  lemma QuotedKeyIsLexed(s: string, key: string)
    requires key in KEYS && Quoted(key) <= s
    ensures s[0] == '"' && Lex(s) != [] && Lex(s)[0] == Str(key)
    ensures StringEnd(s) == |key| + 2 && !LiteralHasNul(s)
  {
    hide BodyLength, HasNul, Closed, Lex, KEYS;
    PlainKey(key);
    PlainIsClosed(key);
    PlainHasNoNul(key);
    var rest := s[|key| + 2..];
    assert s == Quoted(key) + rest;
    LexString(key, rest);
    ClosedIsBody(key, rest);
    assert s[1..] == key + "\"" + rest;
    assert s[1..|key| + 1] == key;
  }

  /** A literal is a listed key exactly when the text starts with that key in quotes. */
  lemma KeyText(s: string, key: string)
    requires key in KEYS && s != [] && s[0] == '"'
    ensures Quoted(key) <= s <==> Lex(s)[0] == Str(key)
    ensures Quoted(key) <= s ==> StringEnd(s) == |key| + 2 && !LiteralHasNul(s)
  {
    LexLiteral(s);
    hide Lex, StringEnd, LiteralHasNul, KEYS;
    if Quoted(key) <= s { QuotedKeyIsLexed(s, key); }
    if Lex(s)[0] == Str(key) { assert s[..StringEnd(s)] == Quoted(key); }
  }

  lemma KeyIffKey(s: string)
    requires s != [] && s[0] == '"'
    ensures StartsWithKey(s) <==> IsKey(Lex(s)[0])
    ensures StartsWithKey(s) ==> StringEnd(s) >= 8 && !LiteralHasNul(s)
  {
    if i :| 0 <= i < |KEYS| && Quoted(KEYS[i]) <= s {
      PlainKey(KEYS[i]);
      KeyText(s, KEYS[i]);
    } else if IsKey(Lex(s)[0]) {
      var i :| 0 <= i < |KEYS| && KEYS[i] == Lex(s)[0].raw;
      KeyText(s, KEYS[i]);
    }
  }

  /** What the rewrite still has to write for the rest of a text. */
  ghost function ToWrite(s: string, afterKey: bool): (t: string) { Text(Rewritten(Lex(s), afterKey)) }

  lemma {:induction false} GapText(s: string)
    ensures ToWrite(s, true) == s[..GapLength(s)] + ToWrite(s[GapLength(s)..], true)
  {
    hide ToWrite;
    if s != [] && IsGap(s[0]) {
      var n := GapLength(s[1..]);
      GapText(s[1..]);
      OneGap(s);
      Slices(s, 1, n);
    } else {
      assert s[..0] + ToWrite(s[0..], true) == ToWrite(s, true) by { assert s[0..] == s; }
    }
  }

  lemma {:induction false} GapRefusal(s: string)
    ensures Refused(Lex(s)) <==> Refused(Lex(s[GapLength(s)..]))
  {
    if s != [] && IsGap(s[0]) {
      GapRefusal(s[1..]);
      RefusedCons(Other(s[0]), Lex(s[1..]));
      Slices(s, 1, GapLength(s[1..]));
    } else {
      assert s[0..] == s;
    }
  }

  /** Slices of a text at two successive positions. */
  lemma Slices(s: string, k: nat, n: nat)
    requires k + n <= |s|
    ensures s[k..][n..] == s[k + n..] && s[k..][..n] == s[k..k + n] && s[..k] + s[k..][..n] == s[..k + n]
  {}

  lemma LexOther(s: string)
    requires s != [] && s[0] != '"'
    ensures Lex(s) == [Other(s[0])] + Lex(s[1..])
  {}

  lemma AfterKeyGap(c: char, tokens: seq<Token>)
    requires IsGap(c)
    ensures AfterKey([Other(c)] + tokens) == [Other(c)] + AfterKey(tokens)
  {
    assert ([Other(c)] + tokens)[1..] == tokens;
  }

  lemma OneGap(s: string)
    requires s != [] && IsGap(s[0])
    ensures ToWrite(s, true) == s[..1] + ToWrite(s[1..], true)
  {
    hide Lex, AfterKey, Requote, Text;
    var rest := Lex(s[1..]);
    LexOther(s);
    AfterKeyGap(s[0], rest);
    TextCons(Other(s[0]), AfterKey(rest));
  }

  lemma {:induction false} LexRun(s: string, n: nat)
    requires n <= |s| && forall i :: 0 <= i < n ==> InNumber(s[i])
    ensures |Lex(s)| >= n && Lex(s)[n..] == Lex(s[n..])
    ensures forall i :: 0 <= i < n ==> Lex(s)[i] == Other(s[i])
  {
    if n == 0 {
      assert s[0..] == s;
    } else {
      LexRun(s[1..], n - 1);
      assert s[1..][n - 1..] == s[n..];
      assert Lex(s)[n..] == Lex(s[1..])[n - 1..];
    }
  }

  lemma NumberText(s: string)
    requires s != [] && StartsNumber(s[0])
    ensures var n := NumberLength(s);
            && ToWrite(s, true) == Quoted(s[..n]) + ToWrite(s[n..], false)
            && (Refused(Lex(s)) <==> Refused(Lex(s[n..])))
  {
    var n := NumberLength(s);
    LexRun(s, n);
    RunMatches(s, n);
    assert Chars(Lex(s)[..n]) == s[..n];
    hide Lex, Requote, Text, NumberLength, RunLength, Refused;
    TextCons(Added(s[..n]), Requote(Lex(s[n..])));
    RefusedDrop(Lex(s), n);
  }

  lemma RunMatches(s: string, n: nat)
    requires n == NumberLength(s) && |Lex(s)| >= n && Lex(s)[n..] == Lex(s[n..])
    requires forall i :: 0 <= i < n ==> Lex(s)[i] == Other(s[i])
    ensures RunLength(Lex(s)) == n
  {
    if n < |Lex(s)| { assert Lex(s)[n] == Lex(s[n..])[0]; }
  }

  lemma LiteralText(s: string)
    requires s != [] && s[0] == '"'
    ensures ToWrite(s, false) == s[..StringEnd(s)] + ToWrite(s[StringEnd(s)..], IsKey(Lex(s)[0]))
    ensures Refused(Lex(s)) <==> LiteralHasNul(s) || Refused(Lex(s[StringEnd(s)..]))
  {
    LexLiteral(s);
    TextCons(Lex(s)[0], Rewritten(Lex(s[StringEnd(s)..]), IsKey(Lex(s)[0])));
    RefusedCons(Lex(s)[0], Lex(s[StringEnd(s)..]));
    RewrittenStep(Lex(s), false);
  }

  lemma KeyAndGap(s: string)
    requires s != [] && s[0] == '"' && StartsWithKey(s)
    ensures ToWrite(s, false) == s[..ValueStart(s)] + ToWrite(s[ValueStart(s)..], true)
    ensures Refused(Lex(s)) <==> Refused(Lex(s[ValueStart(s)..]))
  {
    hide ToWrite, Lex, Refused, LiteralHasNul, StartsWithKey, GapLength, StringEnd, IsKey;
    var rest := s[StringEnd(s)..];
    var g := GapLength(rest);
    assert ValueStart(s) == StringEnd(s) + g;
    KeyIffKey(s);
    LiteralText(s);
    GapText(rest);
    GapRefusal(rest);
    Slices(s, StringEnd(s), g);
    hide *;
    Regroup(s[..StringEnd(s)], rest[..g], ToWrite(rest[g..], true));
  }

  lemma KeyRound(s: string)
    requires s != [] && s[0] == '"' && StartsWithKey(s)
    ensures var r := NextRound(s);
            && ToWrite(s, false) == r.text + ToWrite(s[r.read..], false)
            && (Refused(Lex(s)) <==> Refused(Lex(s[r.read..])))
  {
    hide ToWrite, Lex, Refused, StartsWithKey, Quoted, ValueStart, NumberLength;
    var g := ValueStart(s);
    var value := s[g..];
    KeyAndGap(s);
    if g < |s| && StartsNumber(s[g]) {
      var n := NumberLength(value);
      NumberText(value);
      Slices(s, g, n);
      Regroup(s[..g], Quoted(value[..n]), ToWrite(s[g + n..], false));
    } else {
      NoNumber(value);
    }
  }

  lemma NoNumber(s: string)
    requires s == [] || !(IsGap(s[0]) || StartsNumber(s[0]))
    ensures ToWrite(s, true) == ToWrite(s, false)
  {}

  lemma RoundText(s: string)
    requires s != []
    ensures var r := NextRound(s);
            && ToWrite(s, false) == r.text + ToWrite(s[r.read..], false)
            && (Refused(Lex(s)) <==> RefusedHere(s) || Refused(Lex(s[r.read..])))
  {
    if s[0] != '"' {
      TextCons(Other(s[0]), Requote(Lex(s[1..])));
      RefusedCons(Other(s[0]), Lex(s[1..]));
    } else if StartsWithKey(s) {
      KeyRound(s);
    } else {
      KeyIffKey(s);
      LiteralText(s);
    }
  }

  /** The scanner computes the rewrite on tokens, and refuses the same texts. */
  lemma {:induction false} ScanRefinesRewrite(s: string)
    ensures Scan(s) == Prepared(s)
  {
    if s != [] {
      RoundText(s);
      ScanRefinesRewrite(s[NextRound(s).read..]);
    }
  }

  // ---- The loops that fill the output buffer ----

  /** `exact_integer_key_at`. */
  method KeyLengthAt(s: string) returns (n: nat)
    requires s != [] && s[0] == '"'
    ensures n > 0 <==> StartsWithKey(s)
    ensures n > 0 ==> n == StringEnd(s) >= 8
  {
    var i := 0;
    while i < |KEYS|
      invariant 0 <= i <= |KEYS|
      invariant forall k :: 0 <= k < i ==> !(Quoted(KEYS[k]) <= s)
    {
      var quoted := Quoted(KEYS[i]);
      if quoted <= s {
        KeyText(s, KEYS[i]);
        PlainKey(KEYS[i]);
        return |quoted|;
      }
      i := i + 1;
    }
    n := 0;
  }

  /**
   The helpers below copy from the start of `s`, the rest of the input, to `copy[o..]` and return
   how many characters they consumed.
   */
  method CopyGap(s: string, copy: array<char>, o: nat) returns (n: nat)
    requires o + |s| <= copy.Length
    modifies copy
    ensures n == GapLength(s) && copy[..o + n] == old(copy[..o]) + s[..n]
  {
    hide GapLength;
    ghost var front := copy[..o];
    n := 0;
    assert s[0..] == s;
    while n < |s| && IsGap(s[n])
      invariant n <= |s| && GapLength(s) == n + GapLength(s[n..])
      invariant copy[..o + n] == front + s[..n]
    {
      copy[o + n] := s[n];
      assert s[n..][1..] == s[n + 1..];
      n := n + 1;
    }
  }

  method CopyNumber(s: string, copy: array<char>, o: nat) returns (n: nat)
    requires o + |s| + 2 <= copy.Length
    modifies copy
    ensures n == NumberLength(s) && copy[..o + n + 2] == old(copy[..o]) + Quoted(s[..n])
  {
    hide NumberLength, InNumber;
    ghost var front := copy[..o];
    copy[o] := '"';
    n := 0;
    assert s[0..] == s;
    while n < |s| && InNumber(s[n])
      invariant n <= |s| && NumberLength(s) == n + NumberLength(s[n..])
      invariant copy[..o] == front && copy[o] == '"' && copy[o + 1..o + 1 + n] == s[..n]
    {
      copy[o + 1 + n] := s[n];
      assert s[n..][1..] == s[n + 1..];
      n := n + 1;
    }
    copy[o + 1 + n] := '"';
    assert copy[..o + n + 2] == front + Quoted(s[..n]);
  }

  /** Copies a string literal; fails at a NUL escape. */
  method CopyString(s: string, copy: array<char>, o: nat) returns (ok: bool, n: nat)
    requires s != [] && s[0] == '"' && o + |s| <= copy.Length
    modifies copy
    ensures ok <==> !LiteralHasNul(s)
    ensures ok ==> n == StringEnd(s) && copy[..o + n] == old(copy[..o]) + s[..n]
  {
    hide HasNul, BodyLength;
    ghost var end, front := BodyLength(s[1..]) + 1, copy[..o];
    copy[o] := s[0];
    n := 1;
    while n < |s| && s[n] != '"'
      invariant 1 <= n <= end && end == n + BodyLength(s[n..])
      invariant LiteralHasNul(s) <==> HasNul(s[n..end])
      invariant copy[..o + n] == front + s[..n]
    {
      BodyRound(s, n, end);
      if s[n] == '\\' && NUL_ESCAPE <= s[n..] {
        return false, 0;
      }
      var m := CopyEscape(s, n, copy, o);
      Regroup(front, s[..n], s[n..m]);
      assert s[..n] + s[n..m] == s[..m];
      n := m;
    }
    BodyDone(s, n);
    if n < |s| {
      n := CopyOne(s, n, copy, o);
    }
    ok := true;
  }

  /** Copies a character, and the one after it if it is a backslash. */
  method CopyEscape(s: string, n: nat, copy: array<char>, o: nat) returns (m: nat)
    requires n < |s| && o + |s| <= copy.Length
    modifies copy
    ensures m == n + (if s[n] == '\\' && n + 1 < |s| then 2 else 1) && m <= |s|
    ensures copy[..o + m] == old(copy[..o + n]) + s[n..m]
  {
    m := n;
    if s[m] == '\\' && m + 1 < |s| {
      m := CopyOne(s, m, copy, o);
    }
    m := CopyOne(s, m, copy, o);
  }

  lemma BodyDone(s: string, n: nat)
    requires n <= |s| && (n < |s| ==> s[n] == '"')
    ensures BodyLength(s[n..]) == 0 && !HasNul(s[n..n])
  {}

  method CopyOne(s: string, n: nat, copy: array<char>, o: nat) returns (m: nat)
    requires n < |s| && o + |s| <= copy.Length
    modifies copy
    ensures m == n + 1 && copy[..o + n] == old(copy[..o + n])
    ensures copy[..o + m] == old(copy[..o + n]) + [s[n]]
  {
    copy[o + n] := s[n];
    m := n + 1;
  }

  /** One round of the loop over a string body. */
  lemma BodyRound(s: string, n: nat, end: nat)
    requires 1 <= n < |s| && s[n] != '"' && end == n + BodyLength(s[n..])
    ensures var step := if s[n] == '\\' && n + 1 < |s| then 2 else 1;
            && n + step <= end <= |s| && end == n + step + BodyLength(s[n + step..])
            && (HasNul(s[n..end]) <==> (s[n] == '\\' && NUL_ESCAPE <= s[n..]) || HasNul(s[n + step..end]))
  {
    var step := if s[n] == '\\' && n + 1 < |s| then 2 else 1;
    assert s[n..][step..] == s[n + step..] && s[n..end][step..] == s[n + step..end];
    assert s[n..][..end - n] == s[n..end];
    NulWithin(s[n..]);
  }

  lemma NulWithin(t: string)
    ensures NUL_ESCAPE <= t[..BodyLength(t)] <==> NUL_ESCAPE <= t
    ensures NUL_ESCAPE <= t ==> t[0] == '\\'
  {}

  /** The branch for a listed key: the key, blanks and colons, and a number in quotes. */
  method CopyKeyAndValue(s: string, keyLen: nat, copy: array<char>, o: nat) returns (n: nat, written: nat)
    requires s != [] && s[0] == '"' && StartsWithKey(s) && keyLen == StringEnd(s)
    requires o + |s| + 2 <= copy.Length
    modifies copy
    ensures n == NextRound(s).read >= keyLen && written == |NextRound(s).text| <= n + 2
    ensures o + written <= copy.Length && copy[..o + written] == old(copy[..o]) + NextRound(s).text
  {
    hide Quoted, StringEnd, ValueStart, NumberLength, StartsWithKey, NextRound;
    ghost var front := copy[..o];
    KeyRoundIs(s);
    n := CopyKeyAndGap(s, keyLen, copy, o);
    written := n;
    if n < |s| && StartsNumber(s[n]) {
      ghost var key := s[..n];
      var number := CopyNumber(s[n..], copy, o + n);
      Regroup(front, key, Quoted(s[n..][..number]));
      n, written := n + number, n + number + 2;
    }
  }

  lemma KeyRoundIs(s: string)
    requires s != [] && s[0] == '"' && StartsWithKey(s)
    ensures var g := ValueStart(s);
            var n := NumberLength(s[g..]);
            NextRound(s) == if g < |s| && StartsNumber(s[g]) then Round(g + n, s[..g] + Quoted(s[g..][..n]))
                            else Round(g, s[..g])
  {
    hide Quoted, NumberLength, StartsWithKey;
    var g := ValueStart(s);
    Slices(s, g, NumberLength(s[g..]));
  }

  method CopyKeyAndGap(s: string, keyLen: nat, copy: array<char>, o: nat) returns (n: nat)
    requires s != [] && s[0] == '"' && keyLen == StringEnd(s)
    requires o + |s| <= copy.Length
    modifies copy
    ensures n == ValueStart(s) && copy[..o + n] == old(copy[..o]) + s[..n]
  {
    hide StringEnd, GapLength;
    ghost var front := copy[..o];
    forall k | 0 <= k < keyLen {
      copy[o + k] := s[k];
    }
    assert copy[..o + keyLen] == front + s[..keyLen];
    var gap := CopyGap(s[keyLen..], copy, o + keyLen);
    Slices(s, keyLen, gap);
    n := keyLen + gap;
  }

  /** One round of the main loop: at most two quotes are added, and only for eight characters read. */
  method CopyRound(s: string, copy: array<char>, o: nat) returns (ok: bool, n: nat, written: nat)
    requires s != [] && o + |s| + 2 <= copy.Length
    modifies copy
    ensures ok <==> !RefusedHere(s)
    ensures ok ==> n == NextRound(s).read && written <= n + (if n >= 8 then 2 else 0)
    ensures ok ==> o + written <= copy.Length && copy[..o + written] == old(copy[..o]) + NextRound(s).text
  {
    if s[0] != '"' {
      copy[o] := s[0];
      assert copy[..o + 1] == old(copy[..o]) + s[..1];
      return true, 1, 1;
    }
    var keyLen := KeyLengthAt(s);
    if keyLen > 0 {
      n, written := CopyKeyAndValue(s, keyLen, copy, o);
      ok := true;
    } else {
      ok, n := CopyString(s, copy, o);
      written := n;
    }
  }

  /** `prepare_json`. The writes stay inside the buffer, whose size is the one of the source. */
  method Prepare(json: string) returns (r: Option<string>)
    ensures r == Prepared(json)
  {
    ScanRefinesRewrite(json);
    r := RunScan(json);
  }

  /** The size of the output buffer. */
  function BufferSize(len: nat): (size: nat) { len + 2 * (len / 8 + 1) + 1 }

  /** The output is longer than the input read so far by two quotes for eight characters at most. */
  ghost predicate PaidFor(at: nat, o: nat) { o <= at + 2 * (at / 8) }

  method RunScan(json: string) returns (r: Option<string>)
    ensures r == Scan(json)
  {
    hide *;
    var copy := new char[BufferSize(|json|)];
    var at, o := 0, 0;
    ghost var done := "";
    ScanStart(json);
    Room(0, 0, |json|);
    while at < |json|
      invariant 0 <= at <= |json| && 0 <= o && PaidFor(at, o)
      invariant 0 <= o < copy.Length == BufferSize(|json|) && copy[..o] == done
      invariant Scan(json) == Prepend(done, Scan(json[at..]))
    {
      ScanAdvance(json, at, done);
      Room(at, o, |json|);
      var ok, n, written := CopyRound(json[at..], copy, o);
      if !ok {
        return None;
      }
      StillPaidFor(at, o, n, written);
      done := done + NextRound(json[at..]).text;
      at, o := at + n, o + written;
      Room(at, o, |json|);
    }
    assert json[at..] == [];
    ScanEnds(done);
    r := Some(copy[..o]);
    copy[o] := '\0';
  }

  /** There is always room for the rest of the input, two more quotes and the terminator. */
  lemma Room(at: nat, o: nat, len: nat)
    requires at <= len && PaidFor(at, o)
    ensures o + (len - at) + 2 < BufferSize(len)
  {}

  lemma StillPaidFor(at: nat, o: nat, n: nat, written: nat)
    requires PaidFor(at, o) && written <= n + (if n >= 8 then 2 else 0)
    ensures PaidFor(at + n, o + written)
  {}

  lemma ScanStart(json: string)
    ensures PaidFor(0, 0) && Scan(json) == Prepend("", Scan(json[0..]))
  {
    assert json[0..] == json;
    assert Scan(json).Some? ==> [] + Scan(json).value == Scan(json).value;
  }

  lemma ScanEnds(done: string)
    ensures Prepend(done, Scan([])) == Some(done)
  {
    assert done + [] == done;
  }

  lemma ScanAdvance(json: string, at: nat, done: string)
    requires at < |json| && Scan(json) == Prepend(done, Scan(json[at..]))
    ensures var s := json[at..];
            if RefusedHere(s) then Scan(json) == None
            else Scan(json) == Prepend(done + NextRound(s).text, Scan(json[at + NextRound(s).read..]))
  {
    var s := json[at..];
    assert s[NextRound(s).read..] == json[at + NextRound(s).read..];
    PrependTwice(done, NextRound(s).text, Scan(json[at + NextRound(s).read..]));
  }

  lemma PrependTwice(a: string, b: string, r: Option<string>)
    ensures Prepend(a, Prepend(b, r)) == Prepend(a + b, r)
  {
    if r.Some? { assert a + (b + r.value) == (a + b) + r.value; }
  }
}
