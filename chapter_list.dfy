/**
 * The chapter sidebar: the word count shown beside each chapter and the rule
 * that marks the chapter being edited.
 */
module ChapterList {
  import opened Common
  import opened Text

  /** A chapter row as the editor holds it (`content` is nullable in the store). */
  datatype Chapter = Chapter(id: string, title: string, content: Option<string>, number: int)

  // ------------------------------------------------------- word counting

  /**
   * `s.split(/\s+/)` continued from a piece `cur` already under construction:
   * every maximal run of whitespace ends the current piece and starts a new one.
   */
  function SplitFrom(s: string, cur: string): (r: seq<string>)
    decreases |s|
  {
    if s == [] then [cur]
    else if IsWhitespace(s[0]) then [cur] + SplitFrom(TrimStart(s[1..]), [])
    else SplitFrom(s[1..], cur + [s[0]])
  }

  /** `s.split(/\s+/)`; as in JavaScript, the empty string splits into one empty piece. */
  function Split(s: string): seq<string>
  {
    SplitFrom(s, [])
  }

  /** `pieces.filter(Boolean)`: the non-empty pieces, in order. */
  function NonEmpty(pieces: seq<string>): (r: seq<string>)
    ensures |r| <= |pieces|
    ensures forall i :: 0 <= i < |r| ==> r[i] != []
  {
    if pieces == [] then []
    else (if pieces[0] == [] then [] else [pieces[0]]) + NonEmpty(pieces[1..])
  }

  /** `s.trim().split(/\s+/).filter(Boolean).length`. */
  function TokenCount(s: string): (r: nat)
    ensures r <= |s|
    ensures r == 0 <==> AllWhitespace(s)
  {
    TokenCountIsWordRuns(s);
    |NonEmpty(Split(Trim(s)))|
  }

  /** `getWordCount`: `null` and the empty string count zero words. */
  function WordCount(content: Option<string>): (r: nat)
    ensures content.None? ==> r == 0
    ensures content.Some? ==> r == TokenCount(content.value)
  {
    if content.None? || content.value == "" then 0 else TokenCount(content.value)
  }

  /**
   * Reference definition: the number of positions where a run of
   * non-whitespace characters begins, `afterSpace` telling whether the
   * character before `s` (if any) was whitespace.
   */
  function WordStarts(s: string, afterSpace: bool): (r: nat)
    ensures r <= |s|
  {
    if s == [] then 0
    else (if afterSpace && !IsWhitespace(s[0]) then 1 else 0) + WordStarts(s[1..], IsWhitespace(s[0]))
  }

  /** The number of maximal runs of non-whitespace characters in `s`. */
  function WordRuns(s: string): nat
  {
    WordStarts(s, true)
  }

  /** A whitespace character before `s` starts no word and leaves the next one counted. */
  lemma {:induction false} SkipWhitespace(s: string, afterSpace: bool)
    requires s != [] && IsWhitespace(s[0])
    ensures WordStarts(s, afterSpace) == WordStarts(TrimStart(s[1..]), true)
  {
    var u := s[1..];
    if u != [] && IsWhitespace(u[0]) {
      SkipWhitespace(u, true);
    }
  }

  lemma TrimStartKeepsWordRuns(s: string)
    ensures WordStarts(TrimStart(s), true) == WordStarts(s, true)
  {
    if s != [] && IsWhitespace(s[0]) {
      SkipWhitespace(s, true);
    }
  }

  /** A trailing whitespace character starts no word. */
  lemma {:induction false} DropTrailingWhitespace(s: string, afterSpace: bool)
    requires s != [] && IsWhitespace(s[|s| - 1])
    ensures WordStarts(s, afterSpace) == WordStarts(s[..|s| - 1], afterSpace)
  {
    if |s| > 1 {
      DropTrailingWhitespace(s[1..], IsWhitespace(s[0]));
      assert s[..|s| - 1][1..] == s[1..][..|s| - 2];
    }
  }

  lemma {:induction false} TrimEndKeepsWordStarts(s: string, afterSpace: bool)
    ensures WordStarts(TrimEnd(s), afterSpace) == WordStarts(s, afterSpace)
    decreases |s|
  {
    if s != [] && IsWhitespace(s[|s| - 1]) {
      DropTrailingWhitespace(s, afterSpace);
      TrimEndKeepsWordStarts(s[..|s| - 1], afterSpace);
    }
  }

  /** Each word started in `s` becomes exactly one non-empty piece of the split. */
  lemma {:induction false} SplitCountsWordStarts(s: string, cur: string)
    ensures |NonEmpty(SplitFrom(s, cur))| == WordStarts(s, cur == []) + (if cur == [] then 0 else 1)
    decreases |s|
  {
    if s == [] {
      assert NonEmpty([cur])  == (if cur == [] then [] else [cur]) + NonEmpty([]);
    } else if IsWhitespace(s[0]) {
      var rest := SplitFrom(TrimStart(s[1..]), []);
      SplitCountsWordStarts(TrimStart(s[1..]), []);
      assert ([cur] + rest)[1..] == rest;
      SkipWhitespace(s, cur == []);
    } else {
      SplitCountsWordStarts(s[1..], cur + [s[0]]);
    }
  }

  /** The split-and-filter pipeline counts exactly the maximal runs of non-whitespace characters. */
  lemma TokenCountIsWordRuns(s: string)
    ensures |NonEmpty(Split(Trim(s)))| == WordRuns(s)
    ensures WordRuns(s) == 0 <==> AllWhitespace(s)
  {
    var t := TrimStart(s);
    SplitCountsWordStarts(Trim(s), []);
    TrimEndKeepsWordStarts(t, true);
    TrimStartKeepsWordRuns(s);
    if Trim(s) != [] {
      assert WordStarts(Trim(s), true) >= 1;
    }
  }

  lemma {:induction false} LeadingWhitespaceStartsNoWord(w: string, s: string)
    requires AllWhitespace(w)
    ensures WordStarts(w + s, true) == WordStarts(s, true)
  {
    if w == [] {
      assert w + s == s;
    } else {
      assert (w + s)[0] == w[0] && IsWhitespace(w[0]);
      assert (w + s)[1..] == w[1..] + s;
      assert WordStarts(w + s, true) == WordStarts(w[1..] + s, true);
      LeadingWhitespaceStartsNoWord(w[1..], s);
    }
  }

  lemma {:induction false} TrailingWhitespaceStartsNoWord(s: string, w: string, afterSpace: bool)
    requires AllWhitespace(w)
    ensures WordStarts(s + w, afterSpace) == WordStarts(s, afterSpace)
    decreases |w|
  {
    if w == [] {
      assert s + w == s;
    } else {
      var w' := w[..|w| - 1];
      assert (s + w)[|s + w| - 1] == w[|w| - 1] && IsWhitespace(w[|w| - 1]);
      DropTrailingWhitespace(s + w, afterSpace);
      assert (s + w)[..|s + w| - 1] == s + w';
      TrailingWhitespaceStartsNoWord(s, w', afterSpace);
    }
  }

  /** Whitespace added around a text changes neither its word count nor the persisted one. */
  lemma PaddingKeepsTokenCount(lead: string, s: string, trail: string)
    requires AllWhitespace(lead) && AllWhitespace(trail)
    ensures TokenCount(lead + s + trail) == TokenCount(s)
  {
    TokenCountIsWordRuns(lead + s + trail);
    TokenCountIsWordRuns(s);
    assert lead + s + trail == lead + (s + trail);
    LeadingWhitespaceStartsNoWord(lead, s + trail);
    TrailingWhitespaceStartsNoWord(s, trail, true);
  }

  // ------------------------------------------------------- the list

  /** One rendered sidebar entry. */
  datatype Entry = Entry(title: string, number: int, words: nat, active: bool)

  /** `isActive`: the entry's chapter has the id of the chapter being edited. */
  predicate IsActive(current: Option<Chapter>, ch: Chapter): (r: bool)
    ensures current.None? ==> !r
    ensures current.Some? && current.value.id == ch.id ==> r
    ensures r ==> current.value.id == ch.id
  {
    current.Some? && current.value.id == ch.id
  }

  /** `chapters.map(...)`: one entry per chapter, in the order given. */
  function Entries(chapters: seq<Chapter>, current: Option<Chapter>): (r: seq<Entry>)
    ensures |r| == |chapters|
    ensures forall i :: 0 <= i < |r| ==>
      && r[i].title == chapters[i].title
      && r[i].number == chapters[i].number
      && r[i].words == WordCount(chapters[i].content)
      && (r[i].active <==> current.Some? && current.value.id == chapters[i].id)
  {
    seq(|chapters|, i requires 0 <= i < |chapters| =>
      Entry(chapters[i].title, chapters[i].number, WordCount(chapters[i].content), IsActive(current, chapters[i])))
  }

  predicate DistinctIds(chapters: seq<Chapter>)
  {
    forall i, j :: 0 <= i < j < |chapters| ==> chapters[i].id != chapters[j].id
  }

  /** With distinct ids no two entries are highlighted together, and none is when no chapter is open. */
  lemma AtMostOneActive(chapters: seq<Chapter>, current: Option<Chapter>, i: int, j: int)
    requires DistinctIds(chapters)
    requires 0 <= i < |chapters| && 0 <= j < |chapters|
    ensures current.None? ==> !Entries(chapters, current)[i].active
    ensures i != j ==> !(Entries(chapters, current)[i].active && Entries(chapters, current)[j].active)
  {
    if i < j {
      assert chapters[i].id != chapters[j].id;
    } else if j < i {
      assert chapters[j].id != chapters[i].id;
    }
  }
}
