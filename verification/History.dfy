/** The history file and its pages. */
module History {
  import opened Integers
  import opened Wrappers

  datatype HistoryEntry = HistoryEntry(
    session: nat, raw: string, processed: string, rewritten: Option<string>, output: string)

  /** A line of the file: an entry, text that is none, or bytes that are no text. */
  datatype Line = Written(entry: HistoryEntry) | Unparsable | Unreadable

  /** The entries a reader finds: those of the lines before the first unreadable one. */
  function EntriesOf(file: seq<Line>): seq<HistoryEntry> {
    if file == [] || file[0].Unreadable? then []
    else if file[0].Written? then [file[0].entry] + EntriesOf(file[1..])
    else EntriesOf(file[1..])
  }

  function Reversed(s: seq<HistoryEntry>): (r: seq<HistoryEntry>)
    ensures |r| == |s| && forall i :: 0 <= i < |s| ==> r[i] == s[|s| - 1 - i]
  {
    seq(|s|, i requires 0 <= i < |s| => s[|s| - 1 - i])
  }

  // -------------------------------------------------------------- decimal cursors

  function Digit(n: nat): char
    requires n < 10
  {
    "0123456789"[n]
  }

  function PrintNat(n: nat): string {
    if n < 10 then [Digit(n)] else PrintNat(n / 10) + [Digit(n % 10)]
  }

  function DigitOf(c: char): Option<nat> {
    if '0' <= c <= '9' then Some((c - '0') as nat) else None
  }

  /** The number all of whose digits are read, if it fits. */
  function ParseDigits(s: string): Option<nat>
    decreases |s|
  {
    if s == "" then Some(0)
    else
      match (ParseDigits(s[..|s| - 1]), DigitOf(s[|s| - 1]))
      case (Some(n), Some(d)) => if n * 10 + d <= U64_MAX then Some(n * 10 + d) else None
      case _ => None
  }

  /** A 64-bit unsigned number: an optional plus sign and at least one digit. */
  function ParseNat(s: string): Option<nat> {
    var digits := if s != "" && s[0] == '+' then s[1..] else s;
    if digits == "" then None else ParseDigits(digits)
  }

  lemma DigitRead(d: nat)
    requires d < 10
    ensures DigitOf(Digit(d)) == Some(d) && Digit(d) != '+' && Digit(d) == '0' + d as char
  {}

  lemma Decimal(n: nat)
    ensures n / 10 * 10 + n % 10 == n && (n >= 10 ==> n / 10 < n)
  {}

  lemma ParseMore(s: string, d: nat)
    requires d < 10 && ParseDigits(s).Some? && ParseDigits(s).value * 10 + d <= U64_MAX
    ensures ParseDigits(s + [Digit(d)]) == Some(ParseDigits(s).value * 10 + d)
  {
    assert (s + [Digit(d)])[..|s|] == s;
    DigitRead(d);
    hide Digit, DigitOf;
  }

  lemma {:induction false} PrintParse(n: nat)
    requires n <= U64_MAX
    ensures ParseDigits(PrintNat(n)) == Some(n) && PrintNat(n) != "" && PrintNat(n)[0] != '+'
  {
    hide Digit, DigitOf, ParseDigits;
    DigitRead(n % 10);
    Decimal(n);
    if n < 10 {
      ParseNothing();
      ParseMore("", n);
      assert PrintNat(n) == "" + [Digit(n)];
    } else {
      PrintParse(n / 10);
      ParseMore(PrintNat(n / 10), n % 10);
    }
  }

  lemma ParseNothing()
    ensures ParseDigits("") == Some(0)
  {}

  /** A printed cursor is read back as the number it was. */
  lemma CursorRoundTrip(n: nat)
    requires n <= U64_MAX
    ensures ParseNat(PrintNat(n)) == Some(n)
  {
    PrintParse(n);
  }

  lemma {:induction false} NoSignInside(s: string)
    ensures ParseDigits("+" + s) == None
  {
    var all := "+" + s;
    if s != "" {
      assert all[..|all| - 1] == "+" + s[..|s| - 1];
      NoSignInside(s[..|s| - 1]);
    }
  }

  lemma OneDigitMore(digits: string, c: char)
    ensures ParseDigits("") == Some(0)
    ensures ParseDigits(digits + [c]) ==
              if ParseDigits(digits).Some? && '0' <= c <= '9'
                && ParseDigits(digits).value * 10 + (c as int - '0' as int) <= U64_MAX
              then Some(ParseDigits(digits).value * 10 + (c as int - '0' as int)) else None
  {
    assert (digits + [c])[..|digits|] == digits;
    if '0' <= c <= '9' { assert (c - '0') as int == c as int - '0' as int; }
  }

  /** Which texts are numbers, and which number: one plus sign may come first, the rest is
      decimal, and the number must fit. */
  lemma SignedNumber(s: string)
    ensures ParseNat("") == None && ParseNat("+") == None
    ensures ParseNat("+" + s) == if s == "" || s[0] == '+' then None else ParseNat(s)
  {
    assert ("+" + s)[1..] == s;
    if s != "" && s[0] == '+' {
      assert s == "+" + s[1..];
      NoSignInside(s[1..]);
    }
    hide ParseDigits;
  }

  lemma OneDigitNumber(c: char)
    ensures ParseNat([c]) == if '0' <= c <= '9' then Some(c as int - '0' as int) else None
  {
    OneDigitMore("", c);
    assert "" + [c] == [c];
    hide ParseDigits;
  }

  lemma LongerNumber(s: string, c: char)
    requires s != "" && s != "+"
    ensures var n := ParseNat(s);
            var more := if n.Some? && '0' <= c <= '9' then n.value * 10 + (c as int - '0' as int) else U64_MAX + 1;
            ParseNat(s + [c]) == if more <= U64_MAX then Some(more) else None
  {
    if |s| == 1 { assert s == [s[0]]; }
    if s[0] == '+' {
      assert (s + [c])[1..] == s[1..] + [c];
      OneDigitMore(s[1..], c);
    } else {
      OneDigitMore(s, c);
    }
    hide ParseDigits;
  }

  // ------------------------------------------------------------------------ pages

  function Offset(cursor: Option<string>): nat {
    match cursor
    case Some(s) => (match ParseNat(s) case Some(n) => n case None => 0)
    case None => 0
  }

  function Least(a: nat, b: nat): (c: nat)
    ensures c <= a && c <= b
  {
    if a < b then a else b
  }

  /** The page at a cursor, newest entry first, and the cursor of the next one. */
  function Listed(entries: seq<HistoryEntry>, limit: nat, cursor: Option<string>)
    : (seq<HistoryEntry>, Option<string>)
  {
    var lo := Least(Offset(cursor), |entries|);
    var hi := Least(lo + limit, |entries|);
    var next := Saturate(Offset(cursor) + (hi - lo));
    (Reversed(entries)[lo..hi], if next < |entries| then Some(PrintNat(next)) else None)
  }

  /** A page outright: the entries from the cursor on, newest first, as many as asked
      for and there are, and where the next page begins, if there is one. */
  predicate IsPage(entries: seq<HistoryEntry>, limit: nat, o: nat, page: seq<HistoryEntry>, next: Option<string>) {
    && o <= |entries|
    && |page| == (if limit < |entries| - o then limit else |entries| - o)
    && (forall i :: 0 <= i < |page| ==> page[i] == entries[|entries| - 1 - o - i])
    && (|entries| <= U64_MAX ==>
          if limit < |entries| - o then next.Some? && ParseNat(next.value) == Some(o + limit) else next == None)
  }

  lemma {:induction false} ParsedFits(s: string)
    ensures ParseDigits(s).Some? ==> ParseDigits(s).value <= U64_MAX
    decreases |s|
  {
    if s != "" { ParsedFits(s[..|s| - 1]); }
  }

  lemma OffsetFits(cursor: Option<string>)
    ensures Offset(cursor) <= U64_MAX
    ensures Offset(cursor) ==
              if cursor.Some? && ParseNat(cursor.value).Some? then ParseNat(cursor.value).value else 0
  {
    if cursor.Some? && cursor.value != "" {
      ParsedFits(if cursor.value[0] == '+' then cursor.value[1..] else cursor.value);
    }
  }

  /** What is listed; a cursor that is no number stands for the start. */
  lemma ListedIs(entries: seq<HistoryEntry>, limit: nat, cursor: Option<string>)
    ensures var (page, next) := Listed(entries, limit, cursor);
            var offset := if cursor.Some? && ParseNat(cursor.value).Some? then ParseNat(cursor.value).value else 0;
            IsPage(entries, limit, if offset < |entries| then offset else |entries|, page, next)
  {
    OffsetFits(cursor);
    hide Offset, ParseNat, PrintNat;
    var lo := Least(Offset(cursor), |entries|);
    CursorRoundTrip(Saturate(Offset(cursor) + (Least(lo + limit, |entries|) - lo)));
  }

  class JsonlHistoryRepository {
    var file: Option<seq<Line>>

    function Lines(): seq<Line>
      reads this
    {
      if file.Some? then file.value else []
    }

    constructor ()
      ensures file == None
    {
      file := None;
    }

    method AllEntries() returns (entries: seq<HistoryEntry>)
      ensures entries == EntriesOf(Lines())
    {
      entries := [];
      var i := 0;
      while i < |Lines()| && !Lines()[i].Unreadable?
        invariant 0 <= i <= |Lines()|
        invariant entries + EntriesOf(Lines()[i..]) == EntriesOf(Lines())
      {
        assert Lines()[i..][1..] == Lines()[i + 1..];
        if Lines()[i].Written? { entries := entries + [Lines()[i].entry]; }
        i := i + 1;
      }
    }

    method Append(entry: HistoryEntry)
      modifies this
      ensures file == Some(old(Lines()) + [Written(entry)])
    {
      file := Some(Lines() + [Written(entry)]);
    }

    /** The page at a cursor: the entries from there on, newest first, as many as asked
        for and there are, and where the next page begins, if there is one. A cursor that
        is no number stands for the start. */
    method List(limit: nat, cursor: Option<string>) returns (page: seq<HistoryEntry>, next: Option<string>)
      ensures (page, next) == Listed(EntriesOf(Lines()), limit, cursor)
      ensures var offset := if cursor.Some? && ParseNat(cursor.value).Some? then ParseNat(cursor.value).value else 0;
              var total := |EntriesOf(Lines())|;
              IsPage(EntriesOf(Lines()), limit, if offset < total then offset else total, page, next)
    {
      hide EntriesOf, PrintNat, Reversed;
      var offset := 0;
      if cursor.Some? {
        var parsed := ParseNat(cursor.value);
        if parsed.Some? { offset := parsed.value; }
      }
      assert offset == Offset(cursor);
      hide ParseNat, Offset, Saturate, Least;
      var entries := AllEntries();
      var newestFirst := NewestFirst(entries);
      var lo := Least(offset, |entries|);
      var hi := Least(lo + limit, |entries|);
      page := newestFirst[lo..hi];
      var nextOffset := Saturate(offset + |page|);
      next := if nextOffset < |entries| then Some(PrintNat(nextOffset)) else None;
      hide IsPage;
      ListedIs(entries, limit, cursor);
    }

    method Clear()
      modifies this
      ensures file == None
    {
      file := None;
    }
  }

  method NewestFirst(entries: seq<HistoryEntry>) returns (r: seq<HistoryEntry>)
    ensures r == Reversed(entries)
  {
    var a := new HistoryEntry[|entries|](i requires 0 <= i < |entries| => entries[i]);
    assert a[..] == entries;
    hide Reversed;
    ReverseInPlace(a);
    r := a[..];
  }

  method ReverseInPlace(a: array<HistoryEntry>)
    modifies a
    ensures a[..] == Reversed(old(a[..]))
  {
    ghost var was := a[..];
    var n := a.Length;
    for i := 0 to n / 2
      invariant forall k :: 0 <= k < i ==> a[k] == was[n - 1 - k] && a[n - 1 - k] == was[k]
      invariant forall k :: i <= k < n - i ==> a[k] == was[k]
    {
      a[i], a[n - 1 - i] := a[n - 1 - i], a[i];
    }
  }

  // ------------------------------------------------------------ following cursors

  /** The service asks for between 1 and 500 entries at a time, as near to what was
      requested as that allows. */
  function PageLimit(requested: nat): (limit: nat)
    ensures 1 <= limit <= 500
    ensures requested in {0, limit} || (requested > limit && limit == 500)
  {
    if requested < 1 then 1 else if requested > 500 then 500 else requested
  }

  /** Everything a client reads that follows the cursors from offset `offset` on; after
      each page, some entries may be appended, as long as `appends` lasts. */
  function Followed(entries: seq<HistoryEntry>, requested: nat, cursor: Option<string>, appends: seq<seq<HistoryEntry>>)
    : seq<HistoryEntry>
    requires Total(entries, appends) <= U64_MAX
    decreases |appends|, |entries| - Least(Offset(cursor), |entries|)
  {
    var (page, next) := Listed(entries, PageLimit(requested), cursor);
    if next.None? then page
    else
      assert Offset(next) > Offset(cursor) && Offset(next) < |entries| by {
        TotalCounts(entries, appends);
        NextOffset(entries, PageLimit(requested), cursor);
      }
      if appends == [] then page + Followed(entries, requested, next, [])
      else page + Followed(entries + appends[0], requested, next, appends[1..])
  }

  function Total(entries: seq<HistoryEntry>, appends: seq<seq<HistoryEntry>>): nat
    decreases |appends|
  {
    if appends == [] then |entries| else Total(entries + appends[0], appends[1..])
  }

  lemma {:induction false} TotalCounts(entries: seq<HistoryEntry>, appends: seq<seq<HistoryEntry>>)
    ensures |entries| <= Total(entries, appends)
    decreases |appends|
  {
    if appends != [] { TotalCounts(entries + appends[0], appends[1..]); }
  }

  lemma NextOffset(entries: seq<HistoryEntry>, limit: nat, cursor: Option<string>)
    requires limit >= 1 && |entries| <= U64_MAX
    ensures var (page, next) := Listed(entries, limit, cursor);
            next.Some? ==> Offset(next) == Offset(cursor) + |page| && |page| >= 1 && Offset(next) < |entries|
    ensures var (page, next) := Listed(entries, limit, cursor);
            next.None? ==> Offset(cursor) + |page| >= |entries|
  {
    hide ParseNat, PrintNat, Reversed;
    var lo := Least(Offset(cursor), |entries|);
    var hi := Least(lo + limit, |entries|);
    var next := Saturate(Offset(cursor) + (hi - lo));
    if next < |entries| {
      CursorRoundTrip(next);
      assert Offset(Some(PrintNat(next))) == next;
    }
  }

  lemma PageThenRest(entries: seq<HistoryEntry>, limit: nat, cursor: Option<string>)
    requires limit >= 1 && |entries| <= U64_MAX
    ensures var (page, next) := Listed(entries, limit, cursor);
            var r := Reversed(entries);
            var lo := Least(Offset(cursor), |entries|);
            && (next.None? ==> r[lo..] == page)
            && (next.Some? ==> Offset(next) <= |entries| && r[lo..] == page + r[Offset(next)..])
  {
    NextOffset(entries, limit, cursor);
    hide Offset, Saturate, Reversed, PrintNat;
  }

  lemma {:induction false} FollowedFrom(entries: seq<HistoryEntry>, requested: nat, cursor: Option<string>)
    requires |entries| <= U64_MAX
    ensures Followed(entries, requested, cursor, []) == Reversed(entries)[Least(Offset(cursor), |entries|)..]
    decreases |entries| - Least(Offset(cursor), |entries|)
  {
    var (page, next) := Listed(entries, PageLimit(requested), cursor);
    PageThenRest(entries, PageLimit(requested), cursor);
    NextOffset(entries, PageLimit(requested), cursor);
    if next.Some? { FollowedFrom(entries, requested, next); }
  }

  /** Following the cursors from the start ends and yields every entry once, the
      newest first, whatever page size was asked for. */
  lemma FollowedYieldsAll(entries: seq<HistoryEntry>, requested: nat)
    requires |entries| <= U64_MAX
    ensures Followed(entries, requested, None, []) == Reversed(entries)
  {
    FollowedFrom(entries, requested, None);
  }

  lemma {:induction false} ReversedSame(s: seq<HistoryEntry>)
    ensures multiset(Reversed(s)) == multiset(s)
    decreases |s|
  {
    if s == [] {
      assert Reversed(s) == [];
    } else {
      ReversedSame(s[1..]);
      assert Reversed(s) == Reversed(s[1..]) + [s[0]];
      assert s == [s[0]] + s[1..];
    }
  }

  lemma ReversedSlice(entries: seq<HistoryEntry>, lo: nat, hi: nat)
    requires lo <= hi <= |entries|
    ensures multiset(Reversed(entries)[lo..hi]) == multiset(entries[|entries| - hi..|entries| - lo])
  {
    var s := entries[|entries| - hi..|entries| - lo];
    assert Reversed(entries)[lo..hi] == Reversed(s);
    hide Reversed;
    ReversedSame(s);
  }

  /** The entries that a client at this cursor has still to read. */
  function Unread(entries: seq<HistoryEntry>, cursor: Option<string>): seq<HistoryEntry> {
    entries[..|entries| - Least(Offset(cursor), |entries|)]
  }

  lemma SliceSplits(entries: seq<HistoryEntry>, lo: nat, hi: nat)
    requires lo <= hi <= |entries|
    ensures var n := |entries|;
            multiset(entries[..n - lo]) == multiset(Reversed(entries)[lo..hi]) + multiset(entries[..n - hi])
  {
    hide Reversed;
    var n := |entries|;
    ReversedSlice(entries, lo, hi);
    var left, page := entries[..n - hi], entries[n - hi..n - lo];
    assert entries[..n - lo] == left + page;
  }

  /** A page is a stretch of the reversed entries, and the next cursor is its end. */
  lemma PageIs(entries: seq<HistoryEntry>, limit: nat, cursor: Option<string>) returns (lo: nat, hi: nat)
    requires limit >= 1 && |entries| <= U64_MAX
    ensures lo == Least(Offset(cursor), |entries|) && lo <= hi <= |entries|
    ensures var (page, next) := Listed(entries, limit, cursor);
            && page == Reversed(entries)[lo..hi]
            && (if next.Some? then Least(Offset(next), |entries|) == hi else hi == |entries|)
  {
    lo := Least(Offset(cursor), |entries|);
    hi := Least(lo + limit, |entries|);
    hide Reversed, PrintNat;
    NextOffset(entries, limit, cursor);
    hide Offset, Saturate;
  }

  lemma UnreadSplits(entries: seq<HistoryEntry>, limit: nat, cursor: Option<string>)
    requires limit >= 1 && |entries| <= U64_MAX
    ensures var (page, next) := Listed(entries, limit, cursor);
            multiset(Unread(entries, cursor)) ==
              multiset(page) + if next.Some? then multiset(Unread(entries, next)) else multiset{}
  {
    hide Offset, Reversed, Listed, Least;
    var lo, hi := PageIs(entries, limit, cursor);
    SliceSplits(entries, lo, hi);
  }

  lemma UnreadGrows(entries: seq<HistoryEntry>, more: seq<HistoryEntry>, cursor: Option<string>)
    requires Offset(cursor) <= |entries|
    ensures multiset(Unread(entries, cursor)) <= multiset(Unread(entries + more, cursor))
  {
    var a, b := Unread(entries, cursor), Unread(entries + more, cursor);
    assert b == a + b[|a|..];
  }

  lemma {:induction false} UnreadIsRead(
      entries: seq<HistoryEntry>, requested: nat, cursor: Option<string>, appends: seq<seq<HistoryEntry>>)
    requires Total(entries, appends) <= U64_MAX
    ensures multiset(Unread(entries, cursor)) <= multiset(Followed(entries, requested, cursor, appends))
    decreases |appends|, |entries| - Least(Offset(cursor), |entries|)
  {
    var limit := PageLimit(requested);
    TotalCounts(entries, appends);
    var (page, next) := Listed(entries, limit, cursor);
    UnreadSplits(entries, limit, cursor);
    NextOffset(entries, limit, cursor);
    if next.Some? {
      hide Unread, Listed, Offset;
      if appends == [] {
        UnreadIsRead(entries, requested, next, []);
      } else {
        UnreadGrows(entries, appends[0], next);
        UnreadIsRead(entries + appends[0], requested, next, appends[1..]);
      }
    }
  }

  /** Entries appended between pages never make a client miss one that was there at
      the start: it reads each at least as often as it occurs. */
  lemma NeverSkips(entries: seq<HistoryEntry>, requested: nat, appends: seq<seq<HistoryEntry>>)
    requires Total(entries, appends) <= U64_MAX
    ensures multiset(entries) <= multiset(Followed(entries, requested, None, appends))
  {
    UnreadIsRead(entries, requested, None, appends);
    assert Unread(entries, None) == entries;
  }

  // ------------------------------------------------------------------ the file

  predicate Readable(file: seq<Line>) { forall i :: 0 <= i < |file| ==> !file[i].Unreadable? }

  lemma {:induction false} EntriesTogether(file: seq<Line>, more: seq<Line>)
    ensures EntriesOf(file + more) == EntriesOf(file) + if Readable(file) then EntriesOf(more) else []
  {
    if file == [] {
      assert file + more == more;
    } else {
      assert (file + more)[1..] == file[1..] + more;
      EntriesTogether(file[1..], more);
      assert Readable(file) <==> !file[0].Unreadable? && Readable(file[1..]) by {
        assert forall i :: 1 <= i < |file| ==> file[i] == file[1..][i - 1];
      }
    }
  }

  /** What each line counts for; `EntriesTogether` says the rest of the file goes on. */
  lemma LineCounts(entry: HistoryEntry, more: seq<Line>)
    ensures EntriesOf([]) == [] && EntriesOf([Written(entry)]) == [entry]
    ensures EntriesOf([Unparsable]) == [] && EntriesOf([Unreadable] + more) == []
  {}

  /** An appended entry is listed exactly if no line before it is unreadable; lines
      that are merely no entry do no harm. */
  lemma AppendedIsListedIff(file: seq<Line>, entry: HistoryEntry)
    ensures EntriesOf(file + [Written(entry)]) == EntriesOf(file) + [entry] <==> Readable(file)
  {
    EntriesTogether(file, [Written(entry)]);
    assert EntriesOf([Written(entry)]) == [entry];
  }
}
