/** What cleaning does to a text, character by character. */
module LlmTextLaws {
  import opened Wrappers
  import opened LlmText

  // ----------------------------------------------------------------- characters

  /** White space and line breaks by their code points. */
  lemma CharactersAre(c: char)
    ensures IsWhitespace(c) <==>
              || c as int in {0x20, 0x85, 0xA0, 0x1680, 0x2028, 0x2029, 0x202F, 0x205F, 0x3000}
              || 0x09 <= c as int <= 0x0D || 0x2000 <= c as int <= 0x200A
    ensures c in LINE_BREAKS <==> c as int in {0x85, 0x2028, 0x2029} || 0x0A <= c as int <= 0x0D
  {}

  // ------------------------------------------------------------------- trimming

  /** Trimming takes white space off both ends and nothing else. */
  lemma TrimTakes(s: string) returns (before: string, after: string)
    ensures s == before + Trim(s) + after
    ensures AllWhitespace(before) && AllWhitespace(after)
    ensures Trim(s) != "" ==> !IsWhitespace(Trim(s)[0]) && !IsWhitespace(Trim(s)[|Trim(s)| - 1])
  {
    TrimIs(s);
    before := StartTakes(s);
    after := EndTakes(TrimStart(s));
  }

  lemma {:induction false} StartTakes(s: string) returns (before: string)
    ensures s == before + TrimStart(s) && AllWhitespace(before)
  {
    if s != "" && IsWhitespace(s[0]) {
      var rest := StartTakes(s[1..]);
      before := [s[0]] + rest;
    } else {
      before := "";
    }
  }

  lemma {:induction false} EndTakes(s: string) returns (after: string)
    ensures s == TrimEnd(s) + after && AllWhitespace(after)
  {
    if s != "" && IsWhitespace(s[|s| - 1]) {
      var rest := EndTakes(s[..|s| - 1]);
      after := rest + [s[|s| - 1]];
    } else {
      after := "";
    }
  }

  // ------------------------------------------------------------------ line ends

  lemma {:induction false} CrToLfTogether(s: string, t: string)
    ensures CrToLf(s + t) == CrToLf(s) + CrToLf(t)
  {
    if s == "" {
      assert s + t == t;
    } else {
      assert (s + t)[1..] == s[1..] + t;
      CrToLfTogether(s[1..], t);
    }
  }

  lemma JoinNothing()
    ensures JoinCrLf("") == "" && CrToLf("") == "" && CrToLf("\n") == "\n" && CrToLf("\r") == "\n"
  {}

  lemma JoinPair(rest: string)
    ensures JoinCrLf("\r\n" + rest) == "\n" + JoinCrLf(rest)
  {
    assert ("\r\n" + rest)[2..] == rest;
  }

  lemma JoinOne(c: char, rest: string)
    requires c == '\r' ==> rest == "" || rest[0] != '\n'
    ensures JoinCrLf([c] + rest) == [c] + JoinCrLf(rest)
  {
    assert ([c] + rest)[1..] == rest;
  }

  /** Two texts can be treated one after the other, unless a pair stands between them. */
  lemma {:induction false} JoinTogether(s: string, t: string)
    requires s != "" && s[|s| - 1] == '\r' ==> t == "" || t[0] != '\n'
    ensures JoinCrLf(s + t) == JoinCrLf(s) + JoinCrLf(t)
  {
    hide JoinCrLf;
    if s == "" {
      JoinNothing();
      assert s + t == t;
    } else if |s| >= 2 && s[0] == '\r' && s[1] == '\n' {
      var rest := s[2..];
      assert s == "\r\n" + rest;
      assert s + t == "\r\n" + (rest + t);
      JoinPair(rest);
      JoinPair(rest + t);
      JoinTogether(rest, t);
    } else {
      var rest := s[1..];
      assert s == [s[0]] + rest;
      assert s + t == [s[0]] + (rest + t);
      JoinOne(s[0], rest);
      JoinOne(s[0], rest + t);
      JoinTogether(rest, t);
    }
  }

  /** Each CR LF pair becomes one LF, wherever it stands. */
  lemma PairBecomesLf(s: string, t: string)
    ensures Normalize(s + "\r\n" + t) == Normalize(s) + "\n" + Normalize(t)
  {
    hide JoinCrLf, CrToLf;
    var u := "\r\n" + t;
    assert s + "\r\n" + t == s + u;
    JoinTogether(s, u);
    JoinPair(t);
    CrToLfTogether(JoinCrLf(s), "\n" + JoinCrLf(t));
    CrToLfTogether("\n", JoinCrLf(t));
    JoinNothing();
  }

  /** Any other CR becomes one LF too, and every other character stays. */
  lemma OthersStay(s: string, c: char, t: string)
    requires c == '\n' ==> s == "" || s[|s| - 1] != '\r'
    requires c == '\r' ==> t == "" || t[0] != '\n'
    ensures Normalize(s + [c] + t) == Normalize(s) + [if c == '\r' then '\n' else c] + Normalize(t)
    ensures Normalize("") == ""
  {
    hide JoinCrLf, CrToLf;
    assert s + [c] + t == s + ([c] + t);
    JoinTogether(s, [c] + t);
    JoinOne(c, t);
    CrToLfTogether(JoinCrLf(s), [c] + JoinCrLf(t));
    CrToLfTogether([c], JoinCrLf(t));
    OneToLf(c);
    JoinNothing();
  }

  lemma OneToLf(c: char)
    ensures CrToLf([c]) == [if c == '\r' then '\n' else c]
  {}

  // --------------------------------------------------------------------- fences

  predicate OccursAt(p: string, s: string, k: int) { 0 <= k && k + |p| <= |s| && s[k..k + |p|] == p }

  lemma {:induction false} OccursIff(p: string, s: string)
    ensures Occurs(p, s) <==> exists k :: OccursAt(p, s, k)
  {
    if p <= s {
      assert OccursAt(p, s, 0);
    } else if s != "" {
      OccursIff(p, s[1..]);
      if Occurs(p, s[1..]) {
        var k :| OccursAt(p, s[1..], k);
        assert s[1..][k..k + |p|] == s[k + 1..k + 1 + |p|];
        assert OccursAt(p, s, k + 1);
      }
      forall k | OccursAt(p, s, k) ensures Occurs(p, s) {
        assert k > 0;
        assert s[1..][k - 1..k - 1 + |p|] == s[k..k + |p|];
        assert OccursAt(p, s[1..], k - 1);
      }
    }
  }

  /** `t` is one fenced block around `inner`: a line with three back ticks and perhaps a
      language, the content, and three back ticks, and no others anywhere. */
  predicate Fenced(t: string, info: string, inner: string, alnum: AlphaNum) {
    && t == "```" + info + "\n" + inner + "```"
    && '\n' !in info && !Occurs("```", info) && !Occurs("```", inner)
    && forall i :: 0 <= i < |Trim(info)| ==> alnum(Trim(info)[i]) || Trim(info)[i] in "+-_#."
  }

  lemma FencedFound(t: string, info: string, inner: string, alnum: AlphaNum)
    requires Fenced(t, info, inner, alnum)
    ensures FencedContent(t, alnum) == Some(inner)
  {
    hide Occurs, SplitLine, TrimEnd, Trim, Normalize;
    var body := inner + "```";
    EndsInFence(inner);
    assert t[|FENCE|..] == info + "\n" + body;
    SplitLineOf(info, body);
    assert StripPrefix(t, FENCE) == Some(info + "\n" + body);
  }

  lemma EndsInFence(inner: string)
    ensures TrimEnd(inner + "```") == inner + "```" && StripSuffix(inner + "```", FENCE) == Some(inner)
  {
    var body := inner + "```";
    assert !IsWhitespace(body[|body| - 1]);
    assert body[..|body| - 3] == inner && body[|body| - 3..] == "```";
  }

  lemma {:induction false} FirstLine(s: string)
    requires SplitLine(s).Some?
    ensures '\n' !in SplitLine(s).value.0
  {
    if s[0] != '\n' { FirstLine(s[1..]); }
  }

  lemma ContentIsFenced(t: string, alnum: AlphaNum) returns (info: string)
    requires Trimmed(t) && FencedContent(t, alnum).Some?
    ensures Fenced(t, info, FencedContent(t, alnum).value, alnum)
  {
    hide Occurs, Trim;
    var rest := t[|FENCE|..];
    SplitLineChars(rest);
    FirstLine(rest);
    info := SplitLine(rest).value.0;
    var body := SplitLine(rest).value.1;
    assert t == FENCE + info + "\n" + body;
    assert body != "";
    assert body[|body| - 1] == t[|t| - 1];
    assert TrimEnd(body) == body;
    assert body == body[..|body| - 3] + body[|body| - 3..];
    hide SplitLine, TrimEnd;
  }

  /** What cleaning leaves: the trimmed content, if the text with its line ends unified
      is one fenced block, and the trimmed text otherwise. */
  lemma CleaningIs(text: string, alnum: AlphaNum)
    ensures var n, cleaned := Trim(Normalize(text)), CleanLlmOutput(text, alnum);
            && (forall info, inner :: Fenced(n, info, inner, alnum) ==> cleaned == Trim(inner))
            && ((forall info, inner :: !Fenced(n, info, inner, alnum)) ==> cleaned == n)
  {
    var n := Trim(Normalize(text));
    TrimIs(Normalize(text));
    hide Fenced, FencedContent, Normalize, Trim;
    forall info, inner | Fenced(n, info, inner, alnum) ensures FencedContent(n, alnum) == Some(inner) {
      FencedFound(n, info, inner, alnum);
    }
    if FencedContent(n, alnum).Some? {
      var info := ContentIsFenced(n, alnum);
    }
  }

  /** A text without CR and without back ticks in a row is only trimmed, and then it is
      a reply, or to be inserted, unless it is blank or breaks lines in a terminal. */
  lemma PlainTextIsTrimmed(text: string, isTerminal: bool, alnum: AlphaNum)
    requires NoCr(text) && !Occurs("```", text)
    ensures var t := Trim(text);
            && CleanLlmOutput(text, alnum) == t
            && ProviderResult(text, alnum) == (if t == "" then None else Some(t))
            && PrepareLlmInsertion(text, isTerminal, alnum) ==
                 if t == "" then Empty
                 else if isTerminal && exists i :: 0 <= i < |t| && t[i] in LINE_BREAKS then RefusedMultilineTerminal(t)
                 else Insert(t)
  {
    NormalizeStays(text);
    var t := Trim(text);
    if FENCE <= t { OccursInTrim(FENCE, text); }
    hide Trim;
  }
}
