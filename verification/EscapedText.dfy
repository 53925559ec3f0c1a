/**
 Texts with NUL characters are printed as escaped raw strings. Their text fits its buffer, is one
 JSON string literal, and is exactly what the input side refuses.
 */
module EscapedText {
  import opened Common
  import PrepareJson
  import Schedule

  /** The size of the buffer of `add_string_with_nul`, without its terminator. */
  function RawSize(z: Schedule.Sizes): (n: nat) { 2 + 6 * z.text }

  lemma HexDigits(n: nat)
    requires n < 16
    ensures var c := Schedule.HexDigit(n); c != '"' && c != '\\' && (c == '0' <==> n == 0)
  {}

  lemma {:induction false} EscapedFits(s: string)
    ensures |Schedule.Escaped(s)| <= 6 * |s|
  {
    if s != [] {
      EscapedFits(s[1..]);
    }
  }

  lemma EscapedCharBody(c: char, t: string)
    ensures PrepareJson.BodyLength(Schedule.EscapedChar(c) + t) == |Schedule.EscapedChar(c)| + PrepareJson.BodyLength(t)
  {
    var u := Schedule.EscapedChar(c) + t;
    if Schedule.NeedsEscape(c) {
      HexDigits(c as int / 16);
      HexDigits(c as int % 16);
      hide Schedule.HexDigit;
      assert u[2..][1..] == u[3..] && u[3..][1..] == u[4..] && u[4..][1..] == u[5..] && u[5..][1..] == u[6..] == t;
      PlainStep(u[2..]);
      PlainStep(u[3..]);
      PlainStep(u[4..]);
      PlainStep(u[5..]);
    } else {
      PlainStep(u);
      assert u[1..] == t;
    }
  }

  lemma PlainStep(u: string)
    requires u != [] && u[0] != '\\' && u[0] != '"'
    ensures PrepareJson.BodyLength(u) == 1 + PrepareJson.BodyLength(u[1..])
  {}

  /** The escaped text ends at the closing quote and nowhere before it. */
  lemma {:induction false} EscapedIsOneBody(s: string)
    ensures PrepareJson.BodyLength(Schedule.Escaped(s) + "\"") == |Schedule.Escaped(s)|
  {
    if s == [] {
      assert Schedule.Escaped(s) + "\"" == "\"";
    } else {
      var t := Schedule.Escaped(s[1..]) + "\"";
      EscapedCharBody(s[0], t);
      EscapedIsOneBody(s[1..]);
      hide PrepareJson.BodyLength;
      assert Schedule.Escaped(s) + "\"" == Schedule.EscapedChar(s[0]) + t;
    }
  }

  lemma EscapedCharNul(c: char, t: string)
    ensures PrepareJson.HasNul(Schedule.EscapedChar(c) + t) <==> c == '\0' || PrepareJson.HasNul(t)
  {
    var u := Schedule.EscapedChar(c) + t;
    if Schedule.NeedsEscape(c) {
      HexDigits(c as int / 16);
      HexDigits(c as int % 16);
      hide Schedule.HexDigit;
      var p := Schedule.EscapedChar(c);
      assert u[..6] == p;
      assert c == '\0' ==> p == PrepareJson.NUL_ESCAPE;
      assert c != '\0' ==> p[4] != PrepareJson.NUL_ESCAPE[4] || p[5] != PrepareJson.NUL_ESCAPE[5];
      assert u[2..][1..] == u[3..] && u[3..][1..] == u[4..] && u[4..][1..] == u[5..] && u[5..][1..] == u[6..] == t;
      NotAnEscape(u[2..]);
      NotAnEscape(u[3..]);
      NotAnEscape(u[4..]);
      NotAnEscape(u[5..]);
    } else {
      NotAnEscape(u);
      assert u[1..] == t;
    }
  }

  lemma NotAnEscape(u: string)
    requires u != [] && u[0] != '\\'
    ensures PrepareJson.HasNul(u) == PrepareJson.HasNul(u[1..])
  {}

  lemma {:induction false} EscapedNul(s: string)
    ensures PrepareJson.HasNul(Schedule.Escaped(s)) <==> '\0' in s
  {
    if s != [] {
      EscapedCharNul(s[0], Schedule.Escaped(s[1..]));
      EscapedNul(s[1..]);
      hide PrepareJson.HasNul;
      assert s == [s[0]] + s[1..];
    }
  }

  /**
   A text prints as a string exactly when it has no NUL; with one, its raw form fits the buffer,
   lexes as a single string literal and is refused by `prepare_json`.
   */
  lemma PrintedNulIsRefused(z: Schedule.Sizes, s: string)
    requires |s| <= z.text
    ensures var r := Schedule.PrintText(z, s);
            && r.Some? && (r.value.String? <==> '\0' !in s)
            && ('\0' in s ==> r.value.Raw? && |r.value.text| <= RawSize(z)
                              && PrepareJson.Lex(r.value.text) == [PrepareJson.Str(Schedule.Escaped(s))]
                              && PrepareJson.Prepared(r.value.text).None?)
  {
    if '\0' in s {
      var e := Schedule.Escaped(s);
      EscapedFits(s);
      EscapedIsOneBody(s);
      EscapedNul(s);
      hide Schedule.Escaped, PrepareJson.HasNul;
      LexOneString(e);
    }
  }

  lemma LexOneString(e: string)
    requires PrepareJson.BodyLength(e + "\"") == |e|
    ensures PrepareJson.Lex("\"" + e + "\"") == [PrepareJson.Str(e)]
  {
    var text := "\"" + e + "\"";
    assert text[1..] == e + "\"" && text[1..|e| + 1] == e && text[|e| + 2..] == [];
    assert PrepareJson.Lex([]) == [];
  }
}
