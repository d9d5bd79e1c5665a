/** Cleaning of language-model replies, and the rule that keeps multi-line replies
    out of terminals.  Which characters are alphanumeric is a parameter. */
module LlmText {
  import opened Wrappers

  type AlphaNum = char -> bool

  const FENCE := "```"

  const LINE_BREAKS: set<char> :=
    {'\n', '\r', '\U{000B}', '\U{000C}', '\U{0085}', '\U{2028}', '\U{2029}'}

  /** Unicode white space. */
  predicate IsWhitespace(c: char) {
    || '\U{0009}' <= c <= '\U{000D}' || c == ' ' || c == '\U{0085}' || c == '\U{00A0}' || c == '\U{1680}'
    || '\U{2000}' <= c <= '\U{200A}' || c == '\U{2028}' || c == '\U{2029}' || c == '\U{202F}'
    || c == '\U{205F}' || c == '\U{3000}'
  }

  function TrimStart(s: string): string {
    if s != "" && IsWhitespace(s[0]) then TrimStart(s[1..]) else s
  }

  function TrimEnd(s: string): string {
    if s != "" && IsWhitespace(s[|s| - 1]) then TrimEnd(s[..|s| - 1]) else s
  }

  function Trim(s: string): string { TrimEnd(TrimStart(s)) }

  /** `p` occurs in `s`. */
  predicate Occurs(p: string, s: string) {
    p <= s || (s != "" && Occurs(p, s[1..]))
  }

  function StripPrefix(s: string, p: string): Option<string> {
    if p <= s then Some(s[|p|..]) else None
  }

  function StripSuffix(s: string, p: string): Option<string> {
    if |p| <= |s| && s[|s| - |p|..] == p then Some(s[..|s| - |p|]) else None
  }

  /** The text before and after the first line feed. */
  function SplitLine(s: string): Option<(string, string)> {
    if s == "" then None
    else if s[0] == '\n' then Some(("", s[1..]))
    else match SplitLine(s[1..])
      case None => None
      case Some((line, rest)) => Some(([s[0]] + line, rest))
  }

  /** CR LF pairs become LF. */
  function JoinCrLf(s: string): string {
    if s == "" then ""
    else if |s| >= 2 && s[0] == '\r' && s[1] == '\n' then "\n" + JoinCrLf(s[2..])
    else [s[0]] + JoinCrLf(s[1..])
  }

  /** Remaining CRs become LF. */
  function CrToLf(s: string): string {
    if s == "" then "" else [if s[0] == '\r' then '\n' else s[0]] + CrToLf(s[1..])
  }

  function Normalize(s: string): string { CrToLf(JoinCrLf(s)) }

  predicate IsFenceLanguageTag(info: string, alnum: AlphaNum) {
    forall i :: 0 <= i < |Trim(info)| ==> alnum(Trim(info)[i]) || Trim(info)[i] in {'+', '-', '_', '#', '.'}
  }

  /** The content of a trimmed text that is one fenced block and nothing else. */
  function FencedContent(trimmed: string, alnum: AlphaNum): Option<string> {
    match StripPrefix(trimmed, FENCE)
    case None => None
    case Some(rest) =>
      match SplitLine(rest)
      case None => None
      case Some((info, body)) =>
        if Occurs(FENCE, info) || !IsFenceLanguageTag(info, alnum) then None
        else match StripSuffix(TrimEnd(body), FENCE)
          case None => None
          case Some(inner) => if Occurs(FENCE, inner) then None else Some(inner)
  }

  function StripWrappingCodeFence(text: string, alnum: AlphaNum): string {
    match FencedContent(Trim(text), alnum)
    case None => text
    case Some(inner) => inner
  }

  function CleanLlmOutput(text: string, alnum: AlphaNum): string {
    Trim(StripWrappingCodeFence(Normalize(text), alnum))
  }

  predicate ContainsLineBreak(text: string) {
    exists i :: 0 <= i < |text| && text[i] in LINE_BREAKS
  }

  datatype LlmInsertion = Insert(text: string) | Empty | RefusedMultilineTerminal(text: string)

  function PrepareLlmInsertion(raw: string, isTerminal: bool, alnum: AlphaNum): LlmInsertion {
    var cleaned := CleanLlmOutput(raw, alnum);
    if cleaned == "" then Empty
    else if isTerminal && ContainsLineBreak(cleaned) then RefusedMultilineTerminal(cleaned)
    else Insert(cleaned)
  }

  /** The provider's result for a reply: its cleaned text, unless nothing is left. */
  function ProviderResult(content: string, alnum: AlphaNum): Option<string> {
    var cleaned := CleanLlmOutput(content, alnum);
    if cleaned == "" then None else Some(cleaned)
  }

  // ------------------------------------------------------------------ trimming

  predicate Trimmed(s: string) {
    s != "" ==> !IsWhitespace(s[0]) && !IsWhitespace(s[|s| - 1])
  }

  lemma {:induction false} TrimStartIs(s: string)
    ensures |TrimStart(s)| <= |s| && TrimStart(s) == s[|s| - |TrimStart(s)|..]
    ensures TrimStart(s) != "" ==> !IsWhitespace(TrimStart(s)[0])
  {
    if s != "" && IsWhitespace(s[0]) { TrimStartIs(s[1..]); }
  }

  lemma {:induction false} TrimEndIs(s: string)
    ensures TrimEnd(s) <= s
    ensures TrimEnd(s) != "" ==> !IsWhitespace(TrimEnd(s)[|TrimEnd(s)| - 1])
    ensures s != "" && !IsWhitespace(s[0]) ==> TrimEnd(s) != ""
  {
    if s != "" && IsWhitespace(s[|s| - 1]) { TrimEndIs(s[..|s| - 1]); }
  }

  lemma TrimIs(s: string)
    ensures Trimmed(Trim(s)) && Trim(s) <= TrimStart(s) && |Trim(s)| <= |s|
    ensures forall i :: 0 <= i < |Trim(s)| ==> Trim(s)[i] in s
  {
    TrimStartIs(s);
    TrimEndIs(TrimStart(s));
    var k := |s| - |TrimStart(s)|;
    assert forall i :: 0 <= i < |Trim(s)| ==> Trim(s)[i] == s[k + i];
  }

  lemma TrimStays(s: string)
    requires Trimmed(s)
    ensures Trim(s) == s && TrimEnd(s) == s
  {}

  // ------------------------------------------------------------- normalisation

  predicate NoCr(s: string) { forall i :: 0 <= i < |s| ==> s[i] != '\r' }

  lemma {:induction false} CrToLfNoCr(s: string)
    ensures NoCr(CrToLf(s))
  {
    if s != "" {
      CrToLfNoCr(s[1..]);
      var t := CrToLf(s[1..]);
      assert forall i :: 1 <= i < |CrToLf(s)| ==> CrToLf(s)[i] == t[i - 1];
    }
  }

  lemma {:induction false} NormalizeStays(s: string)
    requires NoCr(s)
    ensures JoinCrLf(s) == s && CrToLf(s) == s
  {
    if s != "" {
      assert forall i :: 0 <= i < |s[1..]| ==> s[1..][i] == s[i + 1];
      NormalizeStays(s[1..]);
    }
  }

  // --------------------------------------------------------------- occurrences

  lemma {:induction false} OccursInPrefix(p: string, s: string, t: string)
    requires Occurs(p, s) && s <= t
    ensures Occurs(p, t)
  {
    if !(p <= s) { OccursInPrefix(p, s[1..], t[1..]); }
  }

  lemma {:induction false} OccursInSuffix(p: string, s: string, k: nat)
    requires k <= |s| && Occurs(p, s[k..])
    ensures Occurs(p, s)
  {
    if k > 0 {
      assert s[1..][k - 1..] == s[k..];
      OccursInSuffix(p, s[1..], k - 1);
    }
  }

  lemma OccursInTrim(p: string, s: string)
    requires Occurs(p, Trim(s))
    ensures Occurs(p, s)
  {
    TrimStartIs(s);
    TrimEndIs(TrimStart(s));
    OccursInPrefix(p, Trim(s), TrimStart(s));
    OccursInSuffix(p, s, |s| - |TrimStart(s)|);
  }

  predicate CharsFrom(s: string, t: string) { forall i :: 0 <= i < |s| ==> s[i] in t }

  lemma {:induction false} SplitLineChars(s: string)
    requires SplitLine(s).Some?
    ensures s == SplitLine(s).value.0 + "\n" + SplitLine(s).value.1
  {
    if s[0] != '\n' { SplitLineChars(s[1..]); }
  }

  lemma FencedContentChars(t: string, alnum: AlphaNum)
    requires FencedContent(t, alnum).Some?
    ensures CharsFrom(FencedContent(t, alnum).value, t)
  {
    var rest := t[|FENCE|..];
    SplitLineChars(rest);
    var (info, body) := SplitLine(rest).value;
    TrimEndIs(body);
    var inner := FencedContent(t, alnum).value;
    assert forall i :: 0 <= i < |inner| ==> inner[i] == t[|FENCE| + |info| + 1 + i];
  }

  /** A cleaned text is trimmed, has no carriage return and is not a fenced block. */
  lemma CleanedShape(text: string, alnum: AlphaNum)
    ensures var y := CleanLlmOutput(text, alnum);
            Trimmed(y) && NoCr(y) && FencedContent(y, alnum).None?
  {
    var n := Normalize(text);
    CrToLfNoCr(JoinCrLf(text));
    TrimIs(n);
    var s := StripWrappingCodeFence(n, alnum);
    if FencedContent(Trim(n), alnum).Some? {
      FencedContentChars(Trim(n), alnum);
      assert forall i :: 0 <= i < |s| ==> s[i] in n && s[i] != '\r';
      if FENCE <= Trim(s) { OccursInTrim(FENCE, s); }
    }
    TrimIs(s);
    assert NoCr(s);
  }

  /** Cleaning twice is cleaning once. */
  lemma CleaningIsIdempotent(text: string, alnum: AlphaNum)
    ensures CleanLlmOutput(CleanLlmOutput(text, alnum), alnum) == CleanLlmOutput(text, alnum)
  {
    var y := CleanLlmOutput(text, alnum);
    CleanedShape(text, alnum);
    NormalizeStays(y);
    TrimStays(y);
  }

  /** A reply that came through the provider is never found empty again, is inserted
      unchanged, and is refused exactly when it has a line break and the target is a
      terminal. */
  lemma ProviderReplyIsInsertable(content: string, isTerminal: bool, alnum: AlphaNum)
    requires ProviderResult(content, alnum).Some?
    ensures var r := ProviderResult(content, alnum).value;
            PrepareLlmInsertion(r, isTerminal, alnum) ==
            if isTerminal && ContainsLineBreak(r) then RefusedMultilineTerminal(r) else Insert(r)
  {
    CleaningIsIdempotent(content, alnum);
  }

  // ---------------------------------------------------------------- unwrapping

  lemma {:induction false} SplitLineOf(line: string, rest: string)
    requires '\n' !in line
    ensures SplitLine(line + "\n" + rest) == Some((line, rest))
  {
    var s := line + "\n" + rest;
    if line == "" {
      assert s[1..] == rest;
    } else {
      assert s[0] == line[0] && line[0] in line;
      assert s[1..] == line[1..] + "\n" + rest;
      assert [line[0]] + line[1..] == line;
      SplitLineOf(line[1..], rest);
    }
  }

  lemma {:induction false} NoFenceAcrossLine(s: string)
    requires !Occurs(FENCE, s)
    ensures !Occurs(FENCE, s + "\n")
  {
    if s == "" {
      assert (s + "\n")[1..] == "";
    } else {
      var t := s + "\n";
      assert t[1..] == s[1..] + "\n";
      NoFenceAcrossLine(s[1..]);
      assert |s| < 3 ==> t[|s|] == '\n';
    }
  }

  lemma {:induction false} TrimLine(s: string)
    ensures Trim(s + "\n") == Trim(s)
  {
    if s == "" {
      assert (s + "\n")[1..] == "";
    } else if IsWhitespace(s[0]) {
      assert (s + "\n")[1..] == s[1..] + "\n";
      TrimLine(s[1..]);
    } else {
      assert (s + "\n")[..|s|] == s;
    }
  }

  /** Wrapping a text in one code fence is undone by cleaning. */
  lemma CleaningUnwraps(info: string, body: string, alnum: AlphaNum)
    requires NoCr(info) && NoCr(body) && '\n' !in info && IsFenceLanguageTag(info, alnum)
    requires !Occurs(FENCE, info) && !Occurs(FENCE, body)
    ensures CleanLlmOutput(FENCE + info + "\n" + body + "\n" + FENCE, alnum) == Trim(body)
  {
    var text := FENCE + info + "\n" + body + "\n" + FENCE;
    NormalizeStays(text);
    assert Trimmed(text);
    TrimStays(text);
    FencedContentOf(info, body, alnum);
    TrimLine(body);
  }

  lemma FencedContentOf(info: string, body: string, alnum: AlphaNum)
    requires '\n' !in info && IsFenceLanguageTag(info, alnum)
    requires !Occurs(FENCE, info) && !Occurs(FENCE, body)
    ensures FencedContent(FENCE + info + "\n" + body + "\n" + FENCE, alnum) == Some(body + "\n")
  {
    hide Trim, Occurs, SplitLine, IsFenceLanguageTag;
    var tail := body + "\n" + FENCE;
    var text := FENCE + info + "\n" + body + "\n" + FENCE;
    assert text[|FENCE|..] == info + "\n" + tail;
    assert StripPrefix(text, FENCE) == Some(info + "\n" + tail);
    SplitLineOf(info, tail);
    assert TrimEnd(tail) == tail;
    assert tail[..|tail| - |FENCE|] == body + "\n";
    assert StripSuffix(tail, FENCE) == Some(body + "\n");
    NoFenceAcrossLine(body);
  }

  // -------------------------------------------------------- blank and empty text

  predicate AllWhitespace(s: string) { forall i :: 0 <= i < |s| ==> IsWhitespace(s[i]) }

  lemma {:induction false} TrimEndBlank(s: string)
    ensures TrimEnd(s) == "" <==> AllWhitespace(s)
  {
    if s != "" {
      var t := s[..|s| - 1];
      TrimEndBlank(t);
      assert AllWhitespace(s) <==> AllWhitespace(t) && IsWhitespace(s[|s| - 1]);
    }
  }

  lemma {:induction false} TrimBlank(s: string)
    ensures Trim(s) == "" <==> AllWhitespace(s)
  {
    if s != "" && IsWhitespace(s[0]) {
      TrimBlank(s[1..]);
      assert forall i :: 1 <= i < |s| ==> s[i] == s[1..][i - 1];
    } else {
      TrimEndBlank(s);
    }
  }

  lemma {:induction false} CrToLfKeeps(s: string)
    ensures ContainsLineBreak(CrToLf(s)) <==> ContainsLineBreak(s)
    ensures AllWhitespace(CrToLf(s)) <==> AllWhitespace(s)
  {
    if s != "" {
      CrToLfKeeps(s[1..]);
      HeadAndTail(s);
      HeadAndTail(CrToLf(s));
      assert CrToLf(s)[1..] == CrToLf(s[1..]);
    }
  }

  lemma HeadAndTail(s: string)
    requires s != ""
    ensures ContainsLineBreak(s) <==> s[0] in LINE_BREAKS || ContainsLineBreak(s[1..])
    ensures AllWhitespace(s) <==> IsWhitespace(s[0]) && AllWhitespace(s[1..])
  {
    assert forall i :: 1 <= i < |s| ==> s[i] == s[1..][i - 1];
    if ContainsLineBreak(s[1..]) {
      var i :| 0 <= i < |s[1..]| && s[1..][i] in LINE_BREAKS;
      assert s[i + 1] in LINE_BREAKS;
    }
  }

  lemma {:induction false} JoinCrLfKeeps(s: string)
    ensures ContainsLineBreak(JoinCrLf(s)) <==> ContainsLineBreak(s)
    ensures AllWhitespace(JoinCrLf(s)) <==> AllWhitespace(s)
  {
    if s != "" {
      HeadAndTail(s);
      HeadAndTail(JoinCrLf(s));
      if |s| >= 2 && s[0] == '\r' && s[1] == '\n' {
        JoinCrLfKeeps(s[2..]);
        HeadAndTail(s[1..]);
        assert s[1..][1..] == s[2..];
        assert JoinCrLf(s)[1..] == JoinCrLf(s[2..]);
      } else {
        JoinCrLfKeeps(s[1..]);
        assert JoinCrLf(s)[1..] == JoinCrLf(s[1..]);
      }
    }
  }

  /** Normalisation neither invents nor hides line breaks and white space. */
  lemma NormalizeKeeps(s: string)
    ensures ContainsLineBreak(Normalize(s)) <==> ContainsLineBreak(s)
    ensures AllWhitespace(Normalize(s)) <==> AllWhitespace(s)
  {
    JoinCrLfKeeps(s);
    CrToLfKeeps(JoinCrLf(s));
  }

  /** The smallest fenced block contains nothing. */
  lemma EmptyBlock(alnum: AlphaNum)
    ensures FencedContent("```\n```", alnum) == Some("") && Trim("```\n```") == "```\n```"
    ensures CleanLlmOutput("```\n```", alnum) == ""
  {
    var t := "```\n```";
    NormalizeStays(t);
    TrimStays(t);
    TrimStays("");
    TrimStays("```");
    hide Normalize, Trim, TrimEnd;
    assert StripPrefix(t, FENCE) == Some("\n```");
    assert "\n```"[1..] == "```";
    assert StripSuffix("```", FENCE) == Some("");
  }

  /** A reply that is not blank but cleans to nothing is a fenced block around
      nothing, so it has line breaks. */
  lemma OnlyFencesCleanToNothing(text: string, alnum: AlphaNum)
    requires Trim(text) != "" && CleanLlmOutput(text, alnum) == ""
    ensures ContainsLineBreak(text)
  {
    var n := Normalize(text);
    NormalizeKeeps(text);
    TrimBlank(text);
    TrimBlank(n);
    var t := Trim(n);
    assert FencedContent(t, alnum).Some?;
    var rest := t[|FENCE|..];
    SplitLineChars(rest);
    var i := |FENCE| + |SplitLine(rest).value.0|;
    assert t[i] == '\n';
    TrimIs(n);
    assert '\n' in n;
    var j :| 0 <= j < |n| && n[j] == '\n';
    assert n[j] in LINE_BREAKS;
  }
}
