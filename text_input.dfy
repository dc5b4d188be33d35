/**
 * Text ingestion: the text panel of the front end.
 *
 * The word-count badge is the pipeline `text.trim().split(/\s+/).filter(w => w.length > 0).length`
 * and the minutes badge is `ceil(wordCount / 200)`. The whitespace class used by `trim` and by
 * `\s` is the parameter `ws` throughout: the model fixes no Unicode table.
 */
module TextIngestion {
  import opened Options

  /** Every character of `s` is whitespace (vacuously true of ""). */
  predicate AllSpace(s: string, ws: char -> bool) {
    forall i :: 0 <= i < |s| ==> ws(s[i])
  }

  /** No character of `s` is whitespace. */
  predicate NoSpace(s: string, ws: char -> bool) {
    forall i :: 0 <= i < |s| ==> !ws(s[i])
  }

  // ---------------------------------------------------------------------------
  // String.prototype.trim

  /** The number of whitespace characters `s` starts with. */
  function LeadCount(s: string, ws: char -> bool): (n: nat)
    ensures n <= |s|
    ensures forall i :: 0 <= i < n ==> ws(s[i])
    ensures n < |s| ==> !ws(s[n])
  {
    if s == [] || !ws(s[0]) then 0 else 1 + LeadCount(s[1..], ws)
  }

  /** The number of whitespace characters `s` ends with. */
  function TrailCount(s: string, ws: char -> bool): (n: nat)
    ensures n <= |s|
    ensures forall i :: |s| - n <= i < |s| ==> ws(s[i])
    ensures n < |s| ==> !ws(s[|s| - 1 - n])
  {
    if s == [] || !ws(s[|s| - 1]) then 0 else 1 + TrailCount(s[..|s| - 1], ws)
  }

  /** `s` without its leading whitespace. */
  function DropLeading(s: string, ws: char -> bool): (r: string)
    ensures |r| <= |s| && r == s[|s| - |r|..]
    ensures AllSpace(s[..|s| - |r|], ws)
    ensures r != [] ==> !ws(r[0])
    ensures s != [] && ws(s[0]) ==> |r| < |s|
  {
    s[LeadCount(s, ws)..]
  }

  /** `s` without its trailing whitespace. */
  function DropTrailing(s: string, ws: char -> bool): (r: string)
    ensures |r| <= |s| && r == s[..|r|]
    ensures AllSpace(s[|r|..], ws)
    ensures r != [] ==> !ws(r[|r| - 1])
  {
    s[..|s| - TrailCount(s, ws)]
  }

  /** `s.trim()`: the result neither starts nor ends with whitespace. */
  function Trim(s: string, ws: char -> bool): (r: string)
    ensures |r| <= |s|
    ensures r == [] || (!ws(r[0]) && !ws(r[|r| - 1]))
  {
    var d := DropLeading(s, ws);
    var r := DropTrailing(d, ws);
    assert r != [] ==> r[0] == d[0];
    r
  }

  /** The length of the whitespace prefix that `trim` removes. */
  function LeadLength(s: string, ws: char -> bool): nat {
    |s| - |DropLeading(s, ws)|
  }

  /** A suffix of a sequence glued back after the prefix it was cut from gives the sequence. */
  lemma PrefixAndSuffix<T>(s: seq<T>, t: seq<T>)
    requires |t| <= |s| && t == s[|s| - |t|..]
    ensures s == s[..|s| - |t|] + t
  {
  }

  /** Concatenation regrouped to the right. */
  lemma Regroup<T>(s: seq<T>, a: seq<T>, b: seq<T>, c: seq<T>)
    requires s == a + b + c
    ensures s == a + (b + c)
  {
  }

  /** A prefix `r` of a suffix `d` of `s` sits between a prefix and a suffix of `s`. */
  lemma SliceOfSuffix<T>(s: seq<T>, d: seq<T>, r: seq<T>)
    requires |d| <= |s| && d == s[|s| - |d|..]
    requires |r| <= |d| && r == d[..|r|]
    ensures d[|r|..] == s[|s| - |d| + |r|..]
    ensures s == s[..|s| - |d|] + r + s[|s| - |d| + |r|..]
  {
    var k := |s| - |d|;
    assert s == s[..k] + d;
    assert d == r + d[|r|..];
  }

  /** `s.trim()` cuts the whitespace prefix and a whitespace suffix off `s`. */
  lemma {:induction false} TrimShape(s: string, ws: char -> bool)
    ensures LeadLength(s, ws) + |Trim(s, ws)| <= |s|
    ensures s == s[..LeadLength(s, ws)] + Trim(s, ws) + s[LeadLength(s, ws) + |Trim(s, ws)|..]
    ensures AllSpace(s[..LeadLength(s, ws)], ws)
    ensures AllSpace(s[LeadLength(s, ws) + |Trim(s, ws)|..], ws)
  {
    var d := DropLeading(s, ws);
    var r := DropTrailing(d, ws);
    SliceOfSuffix(s, d, r);
  }

  /** `!s.trim()`: the string is empty or whitespace only. */
  function IsBlank(s: string, ws: char -> bool): (b: bool)
    ensures b <==> AllSpace(s, ws)
  {
    TrimEmptyIffAllSpace(s, ws);
    Trim(s, ws) == []
  }

  /** `trim` leaves nothing exactly when every character is whitespace. */
  lemma TrimEmptyIffAllSpace(s: string, ws: char -> bool)
    ensures Trim(s, ws) == [] <==> AllSpace(s, ws)
  {
    TrimShape(s, ws);
    var k := LeadLength(s, ws);
    var r := Trim(s, ws);
    assert r != [] ==> s[k] == r[0];
  }

  // ---------------------------------------------------------------------------
  // String.prototype.split(/\s+/) and .filter(word => word.length > 0)

  /** The longest whitespace-free prefix of `s`. */
  function TakeWord(s: string, ws: char -> bool): (w: string)
    ensures |w| <= |s| && w == s[..|w|]
    ensures NoSpace(w, ws)
    ensures |w| < |s| ==> ws(s[|w|])
  {
    if s == [] || ws(s[0]) then [] else [s[0]] + TakeWord(s[1..], ws)
  }

  /** The pieces of `pieces`, concatenated in order. */
  function Concat(pieces: seq<string>): string {
    if pieces == [] then [] else pieces[0] + Concat(pieces[1..])
  }

  /** The non-space characters of `s`, in order. */
  function Unspaced(s: string, ws: char -> bool): string {
    if s == [] then [] else (if ws(s[0]) then [] else [s[0]]) + Unspaced(s[1..], ws)
  }

  /** Removing the spaces of a concatenation removes them from each part. */
  lemma {:induction false} UnspacedAppend(a: string, b: string, ws: char -> bool)
    ensures Unspaced(a + b, ws) == Unspaced(a, ws) + Unspaced(b, ws)
  {
    if a == [] {
      assert a + b == b;
    } else {
      assert (a + b)[1..] == a[1..] + b;
      UnspacedAppend(a[1..], b, ws);
    }
  }

  /** A space-free string loses nothing; a whitespace-only string loses everything. */
  lemma {:induction false} UnspacedPlain(s: string, ws: char -> bool)
    ensures NoSpace(s, ws) ==> Unspaced(s, ws) == s
    ensures AllSpace(s, ws) ==> Unspaced(s, ws) == []
  {
    if s != [] {
      UnspacedPlain(s[1..], ws);
    }
  }

  /** `s.split(/\s+/)`: the pieces between maximal whitespace runs. As in JavaScript, a leading
      run yields a leading "" and a trailing run a trailing "", and "" splits into [""].
      `SplitPieces` says which pieces these are. */
  function Split(s: string, ws: char -> bool): (pieces: seq<string>)
    ensures |pieces| >= 1
    ensures forall i :: 0 <= i < |pieces| ==> NoSpace(pieces[i], ws)
    decreases |s|
  {
    var w := TakeWord(s, ws);
    var rest := s[|w|..];
    if rest == [] then [w] else [w] + Split(DropLeading(rest, ws), ws)
  }

  /** Concatenating a sequence of pieces with one put in front starts with that piece. */
  lemma ConcatCons(p: seq<string>, x: string, t: seq<string>)
    requires p == [x] + t
    ensures Concat(p) == x + Concat(t)
  {
    assert p[1..] == t;
  }

  /** A string's non-space characters are its first word followed by those of the remainder. */
  lemma {:induction false} UnspacedTakeWord(s: string, ws: char -> bool)
    ensures Unspaced(s, ws) == TakeWord(s, ws) + Unspaced(s[|TakeWord(s, ws)|..], ws)
  {
    var w := TakeWord(s, ws);
    assert s == w + s[|w|..];
    UnspacedAppend(w, s[|w|..], ws);
    UnspacedPlain(w, ws);
  }

  /** Dropping leading whitespace loses no non-space character. */
  lemma {:induction false} UnspacedDropLeading(s: string, ws: char -> bool)
    ensures Unspaced(DropLeading(s, ws), ws) == Unspaced(s, ws)
  {
    var d := DropLeading(s, ws);
    var k := |s| - |d|;
    PrefixAndSuffix(s, d);
    UnspacedAppend(s[..k], d, ws);
    UnspacedPlain(s[..k], ws);
  }

  /** The pieces of `split(/\s+/)`, joined, are exactly the non-space characters of `s`,
      in order. */
  lemma {:induction false} SplitConcat(s: string, ws: char -> bool)
    ensures Concat(Split(s, ws)) == Unspaced(s, ws)
    decreases |s|
  {
    var w := TakeWord(s, ws);
    var rest := s[|w|..];
    UnspacedTakeWord(s, ws);
    if rest == [] {
      ConcatCons(Split(s, ws), w, []);
    } else {
      var d := DropLeading(rest, ws);
      ConcatCons(Split(s, ws), w, Split(d, ws));
      SplitConcat(d, ws);
      UnspacedDropLeading(rest, ws);
    }
  }

  /** Every piece other than the first and the last is non-empty. */
  predicate InnerNonEmpty(pieces: seq<string>) {
    forall i :: 0 < i < |pieces| - 1 ==> pieces[i] != []
  }

  /** Putting a piece in front keeps the inner pieces non-empty when the old first piece, now
      an inner one, is non-empty. */
  lemma InnerNonEmptyCons(p: seq<string>, x: string, t: seq<string>)
    requires p == [x] + t && InnerNonEmpty(t) && (|t| > 1 ==> t[0] != [])
    ensures InnerNonEmpty(p)
  {
    forall i | 0 < i < |p| - 1
      ensures p[i] != []
    {
      assert p[i] == t[i - 1];
    }
  }

  /** The first word of `s` is empty exactly when `s` is empty or starts with a space. */
  lemma TakeWordEmpty(s: string, ws: char -> bool)
    ensures TakeWord(s, ws) == [] <==> s == [] || ws(s[0])
  {
  }

  /** Only the first and the last piece of `split(/\s+/)` can be empty; the first is empty
      exactly when `s` is empty or starts with a space. */
  lemma {:induction false} SplitInnerPieces(s: string, ws: char -> bool)
    ensures InnerNonEmpty(Split(s, ws))
    ensures Split(s, ws)[0] == [] <==> s == [] || ws(s[0])
    decreases |s|
  {
    var w := TakeWord(s, ws);
    var rest := s[|w|..];
    TakeWordEmpty(s, ws);
    if rest != [] {
      var d := DropLeading(rest, ws);
      var tail := Split(d, ws);
      SplitInnerPieces(d, ws);
      assert d != [] ==> !ws(d[0]);
      assert d == [] ==> |tail| == 1;
      InnerNonEmptyCons(Split(s, ws), w, tail);
    }
  }

  /** The last element of a non-empty sequence. */
  function Last<T>(p: seq<T>): T
    requires p != []
  {
    p[|p| - 1]
  }

  /** A sequence with an element put in front keeps its last element. */
  lemma LastOfCons<T>(p: seq<T>, x: T, t: seq<T>)
    requires p == [x] + t && t != []
    ensures Last(p) == Last(t)
  {
  }

  /** `s` is empty or its last character is whitespace. */
  predicate EndsInSpace(s: string, ws: char -> bool) {
    s == [] || ws(s[|s| - 1])
  }

  /** A non-empty suffix ends as the whole string does. */
  lemma EndsInSpaceSuffix(s: string, t: string, ws: char -> bool)
    requires t != [] && |t| <= |s| && t == s[|s| - |t|..]
    ensures EndsInSpace(s, ws) == EndsInSpace(t, ws)
  {
    assert s[|s| - 1] == t[|t| - 1];
  }

  /** A non-empty string ends in a space exactly when dropping its leading whitespace leaves
      nothing or a string that ends in a space. */
  lemma EndsInSpaceDropLeading(s: string, ws: char -> bool)
    requires s != []
    ensures EndsInSpace(s, ws) == (DropLeading(s, ws) == [] || EndsInSpace(DropLeading(s, ws), ws))
  {
    var d := DropLeading(s, ws);
    if d == [] {
      assert s[..|s|] == s;
      assert ws(s[|s| - 1]);
    } else {
      EndsInSpaceSuffix(s, d, ws);
    }
  }

  /** The last piece of `split(/\s+/)` is empty exactly when `s` is empty or ends with a space. */
  lemma {:induction false} SplitLastPiece(s: string, ws: char -> bool)
    ensures Last(Split(s, ws)) == [] <==> EndsInSpace(s, ws)
    decreases |s|
  {
    var w := TakeWord(s, ws);
    var rest := s[|w|..];
    if rest == [] {
      assert Split(s, ws) == [w] && s == w;
      assert s != [] ==> !ws(w[|w| - 1]);
    } else {
      var d := DropLeading(rest, ws);
      var tail := Split(d, ws);
      LastOfCons(Split(s, ws), w, tail);
      SplitLastPiece(d, ws);
      EndsInSpaceSuffix(s, rest, ws);
      EndsInSpaceDropLeading(rest, ws);
      if d == [] {
        assert tail == [[]];
      }
    }
  }

  /** `.filter(word => word.length > 0)`: keeps the non-empty pieces, in order and with their
      multiplicity: the result is the input with every "" taken out. */
  function NonEmpty(pieces: seq<string>): (r: seq<string>)
    ensures |r| <= |pieces|
    ensures forall i :: 0 <= i < |r| ==> r[i] != []
  {
    if pieces == [] then []
    else
      var head := if pieces[0] != [] then [pieces[0]] else [];
      var tail := NonEmpty(pieces[1..]);
      head + tail
  }

  /** `filter(w => w.length > 0)` keeps every non-empty piece, as often as it occurs, and drops
      every empty one. */
  lemma {:induction false} NonEmptyFilters(pieces: seq<string>)
    ensures multiset(NonEmpty(pieces)) == multiset(pieces)[[] := 0]
    ensures |NonEmpty(pieces)| == |pieces| - multiset(pieces)[[]]
  {
    if pieces != [] {
      var head := if pieces[0] != [] then [pieces[0]] else [];
      var tail := NonEmpty(pieces[1..]);
      assert NonEmpty(pieces) == head + tail;
      NonEmptyFilters(pieces[1..]);
      assert pieces == [pieces[0]] + pieces[1..];
      assert multiset(pieces) == multiset([pieces[0]]) + multiset(pieces[1..]);
      assert multiset(head + tail) == multiset(head) + multiset(tail);
    }
  }

  /** `filter(w => w.length > 0)` keeps the order: the kept pieces spell what all the pieces
      spell. */
  lemma {:induction false} NonEmptyConcat(pieces: seq<string>)
    ensures Concat(NonEmpty(pieces)) == Concat(pieces)
  {
    if pieces != [] {
      var tail := NonEmpty(pieces[1..]);
      NonEmptyConcat(pieces[1..]);
      if pieces[0] != [] {
        ConcatCons(NonEmpty(pieces), pieces[0], tail);
      } else {
        assert NonEmpty(pieces) == tail;
      }
    }
  }

  /** The word-count badge: `text.trim().split(/\s+/).filter(nonEmpty).length`. It is the number
      of maximal runs of non-space characters of the text, so at most its length. */
  function WordCount(text: string, ws: char -> bool): (n: nat)
    ensures n == Runs(text, ws, true)
    ensures n <= |text|
  {
    PipelineCountsRuns(text, ws);
    |NonEmpty(Split(Trim(text, ws), ws))|
  }

  /** Trimming drops only whitespace, which starts no run, so the pipeline counts the runs of the
      untrimmed text. */
  lemma PipelineCountsRuns(text: string, ws: char -> bool)
    ensures |NonEmpty(Split(Trim(text, ws), ws))| == Runs(text, ws, true)
  {
    var t := Trim(text, ws);
    var k := LeadLength(text, ws);
    TrimShape(text, ws);
    SplitCountsRuns(t, ws);
    var lead, trail := text[..k], text[k + |t|..];
    Regroup(text, lead, t, trail);
    RunsLeadingSpace(lead, t + trail, ws);
    RunsTrailingSpace(t, trail, ws, true);
    assert Runs(text, ws, true) == Runs(t + trail, ws, true);
  }

  /** The words that are counted, joined, are exactly the non-space characters of the text, in
      order: the pipeline loses no character and invents none. */
  lemma {:induction false} WordsSpellText(text: string, ws: char -> bool)
    ensures Concat(NonEmpty(Split(Trim(text, ws), ws))) == Unspaced(text, ws)
  {
    var t := Trim(text, ws);
    var k := LeadLength(text, ws);
    TrimShape(text, ws);
    var lead, trail := text[..k], text[k + |t|..];
    assert text == lead + t + trail;
    UnspacedAppend(lead + t, trail, ws);
    UnspacedAppend(lead, t, ws);
    UnspacedPlain(lead, ws);
    UnspacedPlain(trail, ws);
    assert Unspaced(text, ws) == Unspaced(t, ws);
    NonEmptyConcat(Split(t, ws));
    SplitConcat(t, ws);
  }

  // ---------------------------------------------------------------------------
  // Reference definition: count the word starts

  /** The number of positions of `s` that start a word: a non-space character whose predecessor
      is a space (or, for the first position, when `afterSpace` holds). This is the number of
      maximal runs of non-space characters, counted left to right. */
  function Runs(s: string, ws: char -> bool, afterSpace: bool): (n: nat)
    ensures n <= |s|
    ensures n == 0 ==> s == [] || !afterSpace || ws(s[0])
  {
    if s == [] then 0
    else (if afterSpace && !ws(s[0]) then 1 else 0) + Runs(s[1..], ws, ws(s[0]))
  }

  /** A leading word counts once (if a word may start there) and then ends any pending start. */
  lemma {:induction false} RunsAfterWord(w: string, x: string, ws: char -> bool, p: bool)
    requires NoSpace(w, ws)
    ensures Runs(w + x, ws, p) == (if p && w != [] then 1 else 0) + Runs(x, ws, if w == [] then p else false)
  {
    if w != [] {
      assert (w + x)[1..] == w[1..] + x;
      RunsAfterWord(w[1..], x, ws, false);
    } else {
      assert w + x == x;
    }
  }

  /** A whitespace run in front makes the next non-space character a word start. */
  lemma {:induction false} RunsAfterSpace(s: string, ws: char -> bool, p: bool)
    requires s != [] && ws(s[0])
    ensures Runs(s, ws, p) == Runs(DropLeading(s, ws), ws, true)
  {
    if s[1..] != [] && ws(s[1]) {
      RunsAfterSpace(s[1..], ws, true);
    }
  }

  /** Whitespace in front never changes the count of a string read after a space. */
  lemma {:induction false} RunsLeadingSpace(lead: string, s: string, ws: char -> bool)
    requires AllSpace(lead, ws)
    ensures Runs(lead + s, ws, true) == Runs(s, ws, true)
  {
    if lead != [] {
      assert (lead + s)[1..] == lead[1..] + s;
      RunsLeadingSpace(lead[1..], s, ws);
    } else {
      assert lead + s == s;
    }
  }

  /** Whitespace at the end never changes the count. */
  lemma {:induction false} RunsTrailingSpace(s: string, trail: string, ws: char -> bool, p: bool)
    requires AllSpace(trail, ws)
    ensures Runs(s + trail, ws, p) == Runs(s, ws, p)
  {
    if s == [] {
      assert s + trail == trail;
      RunsOfSpace(trail, ws, p);
    } else {
      assert (s + trail)[1..] == s[1..] + trail;
      RunsTrailingSpace(s[1..], trail, ws, ws(s[0]));
    }
  }

  /** A whitespace-only string holds no word start. */
  lemma {:induction false} RunsOfSpace(s: string, ws: char -> bool, p: bool)
    requires AllSpace(s, ws)
    ensures Runs(s, ws, p) == 0
  {
    if s != [] {
      RunsOfSpace(s[1..], ws, ws(s[0]));
    }
  }

  /** Read after a space, a string has no word start exactly when it is whitespace only. */
  lemma {:induction false} RunsZeroIffSpace(s: string, ws: char -> bool)
    ensures Runs(s, ws, true) == 0 <==> AllSpace(s, ws)
  {
    if AllSpace(s, ws) {
      RunsOfSpace(s, ws, true);
    } else if s != [] && ws(s[0]) {
      RunsZeroIffSpace(s[1..], ws);
      assert !AllSpace(s[1..], ws) by {
        var i :| 0 <= i < |s| && !ws(s[i]);
        assert s[1..][i - 1] == s[i];
      }
    }
  }

  /** Counting the non-empty split pieces is counting word starts. */
  lemma {:induction false} SplitCountsRuns(s: string, ws: char -> bool)
    ensures |NonEmpty(Split(s, ws))| == Runs(s, ws, true)
    decreases |s|
  {
    var w := TakeWord(s, ws);
    var rest := s[|w|..];
    assert s == w + rest;
    RunsAfterWord(w, rest, ws, true);
    if rest == [] {
      assert Split(s, ws) == [w];
      assert NonEmpty([w]) == (if w != [] then [w] else []) + NonEmpty([]);
    } else {
      var d := DropLeading(rest, ws);
      var tail := Split(d, ws);
      assert Split(s, ws) == [w] + tail;
      assert ([w] + tail)[1..] == tail;
      RunsAfterSpace(rest, ws, w == []);
      SplitCountsRuns(d, ws);
    }
  }

  // ---------------------------------------------------------------------------
  // Properties of the word count

  /** The count is zero exactly for empty or whitespace-only text. */
  lemma WordCountZeroIffBlank(text: string, ws: char -> bool)
    ensures WordCount(text, ws) == 0 <==> IsBlank(text, ws)
  {
    RunsZeroIffSpace(text, ws);
  }

  /** Adding leading or trailing whitespace does not change the count. */
  lemma WordCountIgnoresPadding(lead: string, text: string, trail: string, ws: char -> bool)
    requires AllSpace(lead, ws) && AllSpace(trail, ws)
    ensures WordCount(lead + text + trail, ws) == WordCount(text, ws)
  {
    var padded := lead + text + trail;
    assert padded == lead + (text + trail);
    RunsLeadingSpace(lead, text + trail, ws);
    RunsTrailingSpace(text, trail, ws, true);
    assert Runs(padded, ws, true) == Runs(text, ws, true);
  }

  /** Runs across a single whitespace separator add up. */
  lemma {:induction false} RunsAcrossSpace(a: string, c: char, b: string, ws: char -> bool, p: bool)
    requires ws(c)
    ensures Runs(a + [c] + b, ws, p) == Runs(a, ws, p) + Runs(b, ws, true)
  {
    if a == [] {
      assert a + [c] + b == [c] + b;
      assert ([c] + b)[1..] == b;
    } else {
      assert (a + [c] + b)[1..] == a[1..] + [c] + b;
      RunsAcrossSpace(a[1..], c, b, ws, ws(a[0]));
    }
  }

  /** Joining two texts with a space adds their word counts: `wc(a + " " + b) == wc(a) + wc(b)`. */
  lemma WordCountJoin(a: string, b: string, ws: char -> bool)
    requires ws(' ')
    ensures WordCount(a + " " + b, ws) == WordCount(a, ws) + WordCount(b, ws)
  {
    RunsAcrossSpace(a, ' ', b, ws, true);
  }

  // ---------------------------------------------------------------------------
  // The minutes badge

  /** Words per minute assumed for the spoken audio. */
  const WordsPerMinute: nat := 200

  /** `Math.ceil(wordCount / 200)`, on exact integers. */
  function EstimatedMinutes(wordCount: nat): (minutes: nat)
    ensures minutes == 0 <==> wordCount == 0
    ensures minutes > 0 ==> (minutes - 1) * WordsPerMinute < wordCount <= minutes * WordsPerMinute
  {
    (wordCount + WordsPerMinute - 1) / WordsPerMinute
  }

  /** The "~N min audio" badge appears when the estimate is positive. */
  function ShowsMinutesBadge(text: string, ws: char -> bool): (shown: bool)
    ensures shown <==> WordCount(text, ws) > 0
  {
    EstimatedMinutes(WordCount(text, ws)) > 0
  }

  // ---------------------------------------------------------------------------
  // The panel's state

  /** A file handed over by the file picker or by a drop: its MIME type and the text a
      FileReader yields for it. */
  datatype File = File(mimeType: string, content: string)

  const PlainText: string := "text/plain"

  /** The gate of both the upload and the drop handler: a file is read into the panel only when
      there is one and its type is exactly `text/plain`. */
  function IsPlainText(file: Option<File>): (b: bool)
    ensures file.None? ==> !b
    ensures file.Some? ==> (b <==> file.value.mimeType == PlainText)
  {
    file.Some? && file.value.mimeType == PlainText
  }

  /** The comparison is exact: other text types, and `text/plain` with a parameter, are refused. */
  lemma IsPlainTextExact(content: string)
    ensures IsPlainText(Some(File("text/plain", content)))
    ensures !IsPlainText(Some(File("text/markdown", content)))
    ensures !IsPlainText(Some(File("text/plain;charset=utf-8", content)))
    ensures !IsPlainText(Some(File("", content)))
  {
  }

  /**
   * The text panel. `text` is the text cell the panel shows and writes through its
   * `onTextChange` callback; `isDragging` is its own highlight flag.
   */
  class TextInput {
    const ws: char -> bool
    var text: string
    var isDragging: bool

    constructor (ws: char -> bool, text: string)
      ensures this.ws == ws && this.text == text && !isDragging
    {
      this.ws := ws;
      this.text := text;
      isDragging := false;
    }

    /** The word-count badge of the current text. */
    function Words(): (n: nat)
      reads this
      ensures n <= |text|
      ensures n == 0 <==> IsBlank(text, ws)
    {
      WordCountZeroIffBlank(text, ws);
      WordCount(text, ws)
    }

    /** Typing in the text area replaces the text. */
    method Edit(newText: string)
      modifies this`text
      ensures text == newText
    {
      text := newText;
    }

    /** The file picker: a `text/plain` file replaces the whole text, anything else
        (or no file) leaves it as it was. */
    method HandleFileUpload(file: Option<File>)
      modifies this`text
      ensures text == if IsPlainText(file) then file.value.content else old(text)
    {
      if file.None? {
        return;
      }
      if file.value.mimeType == PlainText {
        text := file.value.content;
      }
    }

    /** A drop ends the drag highlight, then applies the same file gate as the picker. */
    method HandleDrop(file: Option<File>)
      modifies this
      ensures !isDragging
      ensures text == if IsPlainText(file) then file.value.content else old(text)
    {
      isDragging := false;
      if file.Some? && file.value.mimeType == PlainText {
        text := file.value.content;
      }
    }

    /** Dragging over the panel turns the highlight on. */
    method HandleDragOver()
      modifies this`isDragging
      ensures isDragging
    {
      isDragging := true;
    }

    /** Leaving the panel turns the highlight off. */
    method HandleDragLeave()
      modifies this`isDragging
      ensures !isDragging
    {
      isDragging := false;
    }

    /** The Clear button empties the text; the badge then shows no words. */
    method Clear()
      modifies this`text
      ensures text == "" && WordCount(text, ws) == 0
    {
      text := "";
    }
  }
}
