/** Recognition that merely repeats its prompt: texts are compared by their words. */
module PromptEcho {
  import opened LlmText

  // ------------------------------------------------------- longest common word run

  /** `k` words from `i` of `a` and from `j` of `b` are the same. */
  predicate CommonRun(a: seq<string>, b: seq<string>, i: nat, j: nat, k: nat) {
    i + k <= |a| && j + k <= |b| && forall d :: i <= d < i + k ==> a[d] == b[d - i + j]
  }

  /** The longest common run that ends before word `i` of `a` and word `j` of `b`. */
  function RunBefore(a: seq<string>, b: seq<string>, i: nat, j: nat): (k: nat)
    requires i <= |a| && j <= |b|
    ensures k <= i && k <= j && CommonRun(a, b, i - k, j - k, k)
  {
    if i > 0 && j > 0 && a[i - 1] == b[j - 1] then RunBefore(a, b, i - 1, j - 1) + 1 else 0
  }

  lemma {:induction false} RunBeforeIsLongest(a: seq<string>, b: seq<string>, i: nat, j: nat, k: nat)
    requires i <= |a| && j <= |b| && k <= i && k <= j && CommonRun(a, b, i - k, j - k, k)
    ensures k <= RunBefore(a, b, i, j)
  {
    if k > 0 {
      assert a[i - 1] == b[j - 1];
      RunBeforeIsLongest(a, b, i - 1, j - 1, k - 1);
    }
  }

  /** `row` holds the run before each word of `b` at word `i` of `a`. */
  ghost predicate IsRow(row: array<nat>, a: seq<string>, b: seq<string>, i: nat, n: nat)
    requires i <= |a|
    reads row
  {
    row.Length == |b| && n <= |b| && forall j :: 0 <= j < n ==> row[j] == RunBefore(a, b, i, j + 1)
  }

  /** No run before word `i` of `a` and the first `j` words of `b` is longer. */
  ghost predicate NoneLonger(best: nat, a: seq<string>, b: seq<string>, i: nat, j: nat)
    requires i <= |a| && j <= |b|
  {
    forall q: nat :: q <= j ==> RunBefore(a, b, i, q) <= best
  }

  /** `best` is the longest run before the first `i` words of `a`. */
  ghost predicate IsBest(best: nat, a: seq<string>, b: seq<string>, i: nat)
    requires i <= |a|
  {
    && (exists p: nat, q: nat :: p <= |a| && q <= |b| && best == RunBefore(a, b, p, q))
    && (forall p: nat :: p <= i ==> NoneLonger(best, a, b, p, |b|))
  }

  /** The length of the longest run of words the two texts have in common: some run
      has it, and none is longer. */
  method LongestCommonWordRun(first: seq<string>, second: seq<string>) returns (best: nat)
    ensures exists i: nat, j: nat :: CommonRun(first, second, i, j, best)
    ensures forall i: nat, j: nat, k: nat :: CommonRun(first, second, i, j, k) ==> k <= best
  {
    hide CommonRun, NoneLonger;
    best := 0;
    if |first| == 0 || |second| == 0 {
      NoWords(first, second);
      return;
    }
    var previous := new nat[|second|](_ => 0);
    var current := new nat[|second|](_ => 0);
    BestAtFirst(first, second);
    for i := 0 to |first|
      invariant previous != current && fresh(previous) && fresh(current)
      invariant IsRow(previous, first, second, i, |second|) && current.Length == |second|
      invariant IsBest(best, first, second, i)
    {
      best := FillRow(first, second, i, previous, current, best);
      previous, current := current, previous;
      forall j | 0 <= j < current.Length { current[j] := 0; }
    }
    LongestOverall(first, second, best);
  }

  /** The inner loop: the row of the next word of `first`. */
  method FillRow(first: seq<string>, second: seq<string>, i: nat, previous: array<nat>, current: array<nat>, soFar: nat)
    returns (best: nat)
    requires i < |first| && previous != current && current.Length == |second|
    requires IsRow(previous, first, second, i, |second|) && IsBest(soFar, first, second, i)
    modifies current
    ensures IsRow(current, first, second, i + 1, |second|) && IsBest(best, first, second, i + 1)
  {
    hide CommonRun, NoneLonger, IsBest, RunBefore;
    best := soFar;
    RunFromNothing(first, second, i + 1, best);
    for index := 0 to |second|
      invariant IsRow(previous, first, second, i, |second|)
      invariant IsRow(current, first, second, i + 1, index)
      invariant IsBest(best, first, second, i) && NoneLonger(best, first, second, i + 1, index)
    {
      current[index] := if first[i] == second[index] then (if index == 0 then 1 else previous[index - 1] + 1) else 0;
      RunUnfolds(first, second, i, index);
      BestGrows(first, second, i, index, best, current[index]);
      if current[index] > best { best := current[index]; }
    }
    BestNext(first, second, i, best);
  }

  lemma NoWords(a: seq<string>, b: seq<string>)
    requires |a| == 0 || |b| == 0
    ensures CommonRun(a, b, 0, 0, 0)
    ensures forall i: nat, j: nat, k: nat :: CommonRun(a, b, i, j, k) ==> k == 0
  {}

  lemma BestAtFirst(a: seq<string>, b: seq<string>)
    ensures IsBest(0, a, b, 0)
    ensures forall j: nat :: j <= |b| ==> RunBefore(a, b, 0, j) == 0
  {
    assert RunBefore(a, b, 0, 0) == 0;
  }

  lemma RunFromNothing(a: seq<string>, b: seq<string>, i: nat, best: nat)
    requires i <= |a|
    ensures NoneLonger(best, a, b, i, 0)
  {
    assert RunBefore(a, b, i, 0) == 0;
  }

  lemma RunUnfolds(a: seq<string>, b: seq<string>, i: nat, j: nat)
    requires i < |a| && j < |b|
    ensures RunBefore(a, b, i + 1, j + 1) == if a[i] == b[j] then RunBefore(a, b, i, j) + 1 else 0
    ensures RunBefore(a, b, i, 0) == 0
  {}

  lemma BestGrows(a: seq<string>, b: seq<string>, i: nat, j: nat, best: nat, run: nat)
    requires i < |a| && j < |b| && run == RunBefore(a, b, i + 1, j + 1)
    requires IsBest(best, a, b, i) && NoneLonger(best, a, b, i + 1, j)
    ensures var longer := if run > best then run else best;
            IsBest(longer, a, b, i) && NoneLonger(longer, a, b, i + 1, j + 1)
  {
    hide RunBefore;
    var longer := if run > best then run else best;
    forall p: nat | p <= i ensures NoneLonger(longer, a, b, p, |b|) { assert NoneLonger(best, a, b, p, |b|); }
  }

  lemma BestNext(a: seq<string>, b: seq<string>, i: nat, best: nat)
    requires i < |a| && IsBest(best, a, b, i) && NoneLonger(best, a, b, i + 1, |b|)
    ensures IsBest(best, a, b, i + 1)
  {}

  lemma LongestOverall(a: seq<string>, b: seq<string>, best: nat)
    requires IsBest(best, a, b, |a|)
    ensures exists i: nat, j: nat :: CommonRun(a, b, i, j, best)
    ensures forall i: nat, j: nat, k: nat :: CommonRun(a, b, i, j, k) ==> k <= best
  {
    var p: nat, q: nat :| p <= |a| && q <= |b| && best == RunBefore(a, b, p, q);
    assert CommonRun(a, b, p - best, q - best, best);
    forall i: nat, j: nat, k: nat | CommonRun(a, b, i, j, k) ensures k <= best {
      assert NoneLonger(best, a, b, i + k, |b|);
      RunBeforeIsLongest(a, b, i + k, j + k, k);
    }
  }

  // ------------------------------------------------------------------------ words

  /** Words split off a text so far; the last one may still be growing. */
  datatype Split = Split(words: seq<string>, open: bool)

  const NO_WORDS := Split([], false)

  function Take(st: Split, c: char, inWord: char -> bool, spell: char -> string): Split {
    if !inWord(c) then Split(st.words, false)
    else if st.open && st.words != [] then
      Split(st.words[..|st.words| - 1] + [st.words[|st.words| - 1] + spell(c)], true)
    else Split(st.words + [spell(c)], true)
  }

  function Feed(st: Split, s: string, inWord: char -> bool, spell: char -> string): Split
    decreases |s|
  {
    if s == "" then st else Take(Feed(st, s[..|s| - 1], inWord, spell), s[|s| - 1], inWord, spell)
  }

  /** The maximal stretches of word characters, each character spelled out. */
  function Words(s: string, inWord: char -> bool, spell: char -> string): seq<string> {
    Feed(NO_WORDS, s, inWord, spell).words
  }

  lemma TakeAfter(words: seq<string>, own: Split, c: char, inWord: char -> bool, spell: char -> string)
    requires own.open ==> own.words != []
    ensures var next := Take(own, c, inWord, spell);
            && (next.open ==> next.words != [])
            && Take(Split(words + own.words, own.open), c, inWord, spell) == Split(words + next.words, next.open)
  {
    if own.open {
      var n := |own.words| - 1;
      assert (words + own.words)[..|words| + n] == words + own.words[..n];
    }
  }

  /** A text that begins where no word is open is split off on its own. */
  lemma {:induction false} FeedAfter(words: seq<string>, t: string, inWord: char -> bool, spell: char -> string)
    ensures var own := Feed(NO_WORDS, t, inWord, spell);
            && (own.open ==> own.words != [])
            && Feed(Split(words, false), t, inWord, spell) == Split(words + own.words, own.open)
    decreases |t|
  {
    hide Take;
    if t != "" {
      var front := t[..|t| - 1];
      FeedAfter(words, front, inWord, spell);
      TakeAfter(words, Feed(NO_WORDS, front, inWord, spell), t[|t| - 1], inWord, spell);
    } else {
      assert words + [] == words;
    }
  }

  /** Anything that is no word character ends a word, and leaves no other trace. */
  lemma WordsTogether(s: string, c: char, t: string, inWord: char -> bool, spell: char -> string)
    requires !inWord(c)
    ensures Words(s + [c] + t, inWord, spell) == Words(s, inWord, spell) + Words(t, inWord, spell)
    ensures Words("", inWord, spell) == []
  {
    FeedTogether(NO_WORDS, s + [c], t, inWord, spell);
    assert (s + [c])[..|s|] == s;
    FeedAfter(Words(s, inWord, spell), t, inWord, spell);
  }

  function Spelled(w: string, spell: char -> string): string {
    if w == "" then "" else Spelled(w[..|w| - 1], spell) + spell(w[|w| - 1])
  }

  /** Word characters in a row are one word, each spelled out. */
  lemma {:induction false} OneWord(w: string, inWord: char -> bool, spell: char -> string)
    requires w != "" && forall i :: 0 <= i < |w| ==> inWord(w[i])
    ensures Feed(NO_WORDS, w, inWord, spell) == Split([Spelled(w, spell)], true)
    ensures Words(w, inWord, spell) == [Spelled(w, spell)]
    decreases |w|
  {
    var front, c := w[..|w| - 1], w[|w| - 1];
    if front != "" {
      OneWord(front, inWord, spell);
      assert [Spelled(front, spell)][..0] == [];
    } else {
      assert Feed(NO_WORDS, front, inWord, spell) == NO_WORDS;
      assert Spelled(front, spell) + spell(c) == spell(c);
    }
  }

  predicate NotSpace(c: char) { !IsWhitespace(c) }

  function Itself(c: char): string { [c] }

  function SplitWhitespace(s: string): seq<string> { Words(s, NotSpace, Itself) }

  /** The words with one space between neighbours. */
  function Join(words: seq<string>): string
    decreases |words|
  {
    if words == [] then ""
    else if |words| == 1 then words[0]
    else Join(words[..|words| - 1]) + " " + words[|words| - 1]
  }

  /** Lower-casing a word character gives at least one character and no white space. */
  ghost predicate Lowers(alnum: AlphaNum, lower: char -> string) {
    forall c: char :: alnum(c) ==> IsWord(lower(c))
  }

  predicate IsWord(w: string) { w != "" && forall i :: 0 <= i < |w| ==> !IsWhitespace(w[i]) }

  predicate AreWords(words: seq<string>) { forall i :: 0 <= i < |words| ==> IsWord(words[i]) }

  predicate Shaped(st: Split) { AreWords(st.words) && (st.open ==> st.words != []) }

  lemma TakeShaped(st: Split, c: char, alnum: AlphaNum, lower: char -> string)
    requires Lowers(alnum, lower) && Shaped(st)
    ensures Shaped(Take(st, c, alnum, lower))
  {
    if alnum(c) { assert IsWord(lower(c)); }
  }

  lemma {:induction false} FeedShaped(s: string, alnum: AlphaNum, lower: char -> string)
    requires Lowers(alnum, lower)
    ensures Shaped(Feed(NO_WORDS, s, alnum, lower))
    decreases |s|
  {
    if s != "" {
      FeedShaped(s[..|s| - 1], alnum, lower);
      TakeShaped(Feed(NO_WORDS, s[..|s| - 1], alnum, lower), s[|s| - 1], alnum, lower);
    }
  }

  // --------------------------------------------------- normalisation and its words

  /** What the loop has written when it has split off `st`. */
  function Written(st: Split): string {
    Join(st.words) + if st.open || st.words == [] then "" else " "
  }

  /** Words are joined by one space. */
  lemma JoinMore(words: seq<string>, w: string)
    ensures Join([]) == "" && Join([w]) == w
    ensures Join(words + [w]) == if words == [] then w else Join(words) + " " + w
  {
    assert (words + [w])[..|words|] == words;
  }

  lemma TakeWritten(st: Split, c: char, alnum: AlphaNum, lower: char -> string)
    requires st.open ==> st.words != []
    ensures var next := Take(st, c, alnum, lower);
            Written(next) == Written(st) + if alnum(c) then lower(c) else if st.open then " " else ""
  {
    hide Join;
    if alnum(c) {
      var more := lower(c);
      if st.open {
        var n := |st.words| - 1;
        var front, w := st.words[..n], st.words[n];
        assert st.words == front + [w];
        JoinMore(front, w);
        JoinMore(front, w + more);
        assert Join(front + [w + more]) == Join(front + [w]) + more;
      } else {
        JoinMore(st.words, more);
        JoinMore([], more);
      }
    }
  }

  /** The text in lower case, its words separated by single spaces. */
  method Normalize(input: string, alnum: AlphaNum, lower: char -> string) returns (output: string)
    requires Lowers(alnum, lower)
    ensures output == Join(Words(input, alnum, lower))
  {
    output := "";
    var previousSpace := true;
    ghost var st := NO_WORDS;
    assert Written(st) == "";
    hide Take, Join;
    for i := 0 to |input|
      invariant st == Feed(NO_WORDS, input[..i], alnum, lower) && Shaped(st)
      invariant output == Written(st) && previousSpace == !st.open
    {
      var c := input[i];
      assert input[..i + 1][..i] == input[..i];
      TakeShaped(st, c, alnum, lower);
      TakeWritten(st, c, alnum, lower);
      if alnum(c) {
        output := output + lower(c);
        previousSpace := false;
      } else if !previousSpace {
        output := output + " ";
        previousSpace := true;
      }
      TakeOpen(st, c, alnum, lower);
      st := Take(st, c, alnum, lower);
    }
    assert input[..|input|] == input;
    EndsInSpace(st);
    if output != "" && output[|output| - 1] == ' ' { output := output[..|output| - 1]; }
  }

  lemma TakeOpen(st: Split, c: char, alnum: AlphaNum, lower: char -> string)
    ensures Take(st, c, alnum, lower).open == alnum(c)
  {}

  lemma EndsInSpace(st: Split)
    requires Shaped(st)
    ensures var w := Written(st);
            (w != "" && w[|w| - 1] == ' ' <==> !st.open && st.words != [])
            && Join(st.words) == if w != "" && w[|w| - 1] == ' ' then w[..|w| - 1] else w
  {
    if st.words != [] {
      var n := |st.words| - 1;
      var last := st.words[n];
      assert IsWord(last);
      assert Join(st.words)[|Join(st.words)| - 1] == last[|last| - 1];
    }
  }

  lemma {:induction false} FeedTogether(st: Split, s: string, t: string, inWord: char -> bool, spell: char -> string)
    ensures Feed(st, s + t, inWord, spell) == Feed(Feed(st, s, inWord, spell), t, inWord, spell)
    decreases |t|
  {
    if t == "" {
      assert s + t == s;
    } else {
      FeedTogether(st, s, t[..|t| - 1], inWord, spell);
      assert (s + t)[..|s + t| - 1] == s + t[..|t| - 1];
    }
  }

  lemma {:induction false} FeedWord(words: seq<string>, w: string)
    requires IsWord(w)
    ensures Feed(Split(words, false), w, NotSpace, Itself) == Split(words + [w], true)
    decreases |w|
  {
    var front, c := w[..|w| - 1], w[|w| - 1];
    if front == "" {
      assert [c] == w;
    } else {
      FeedWord(words, front);
      assert front + [c] == w;
      assert (words + [front])[..|words|] == words;
    }
  }

  /** Joined words are told apart again by the spaces between them. */
  lemma {:induction false} JoinedWords(words: seq<string>)
    requires AreWords(words)
    ensures Feed(NO_WORDS, Join(words), NotSpace, Itself) == Split(words, words != [])
    decreases |words|
  {
    hide Take;
    if words != [] {
      var n := |words| - 1;
      var front, w := words[..n], words[n];
      JoinedWords(front);
      assert front + [w] == words;
      JoinMore(front, w);
      hide Join;
      if front == [] {
        FeedWord([], w);
      } else {
        SpaceEnds(front);
        FeedTogether(NO_WORDS, Join(front) + " ", w, NotSpace, Itself);
        FeedWord(front, w);
      }
    }
  }

  lemma SpaceEnds(words: seq<string>)
    requires Feed(NO_WORDS, Join(words), NotSpace, Itself).words == words
    ensures Feed(NO_WORDS, Join(words) + " ", NotSpace, Itself) == Split(words, false)
  {
    hide Join;
    var j := Join(words);
    assert (j + " ")[..|j|] == j;
  }

  lemma {:induction false} NoWordsNoText(words: seq<string>)
    requires AreWords(words)
    ensures Join(words) == "" <==> words == []
  {
    if words != [] { assert IsWord(words[|words| - 1]); }
  }

  /** The recognised words repeat the prompt: they are a part of its text, or six of
      them or more in a row, and at least seven in ten, are. */
  ghost predicate Echoes(response: seq<string>, prompt: seq<string>) {
    && |Join(response)| >= 8 && prompt != []
    && (Occurs(Join(response), Join(prompt))
        || (|response| >= 6 && exists i: nat, j: nat, k: nat ::
              CommonRun(response, prompt, i, j, k) && k >= 6 && k * 10 >= |response| * 7))
  }

  method IsPromptEcho(response: string, prompt: string, alnum: AlphaNum, lower: char -> string) returns (echo: bool)
    requires Lowers(alnum, lower)
    ensures var said, asked := Words(response, alnum, lower), Words(prompt, alnum, lower);
            echo <==>
              && |Join(said)| >= 8 && asked != []
              && (Occurs(Join(said), Join(asked))
                  || (|said| >= 6 && exists i: nat, j: nat, k: nat ::
                        CommonRun(said, asked, i, j, k) && k >= 6 && k * 10 >= |said| * 7))
  {
    ghost var rw, pw := Words(response, alnum, lower), Words(prompt, alnum, lower);
    FeedShaped(response, alnum, lower);
    FeedShaped(prompt, alnum, lower);
    JoinedWords(rw);
    JoinedWords(pw);
    NoWordsNoText(pw);
    hide Join, Feed, CommonRun, Occurs, IsWord;
    var r := Normalize(response, alnum, lower);
    var p := Normalize(prompt, alnum, lower);
    if |r| < 8 || p == "" { return false; }
    if Occurs(r, p) { return true; }
    var responseWords, promptWords := SplitWhitespace(r), SplitWhitespace(p);
    assert responseWords == rw && promptWords == pw;
    if |responseWords| < 6 { return false; }
    var maxRun := LongestCommonWordRun(responseWords, promptWords);
    echo := maxRun >= 6 && maxRun * 10 >= |responseWords| * 7;
  }

  /** Repeating the prompt word for word is an echo, whatever the case and the
      punctuation, unless there is too little of it. */
  lemma RepetitionEchoes(words: seq<string>)
    requires AreWords(words) && |Join(words)| >= 8
    ensures Echoes(words, words)
  {
    NoWordsNoText(words);
    assert Join(words) <= Join(words);
  }
}
