/**
 * The editor page's local state: the project's chapter list, the chapter being
 * edited and the text in the editing area, and the handlers that change them.
 * Every database call is a parameter carrying its answer; what the page sends to
 * the database is the handler's result.
 */
module Editor {
  import opened Common
  import opened Text
  import opened ChapterList

  /** The row `handleCreateChapter` inserts. */
  datatype ChapterInsert = ChapterInsert(projectId: string, title: string, content: string, number: int, wordCount: int)

  /** The columns `handleSaveChapter` updates on the row with id `id`. */
  datatype ChapterUpdate = ChapterUpdate(id: string, content: string, wordCount: nat)

  /** `chapter.content || ""`. */
  function ContentOf(ch: Chapter): (r: string)
    ensures ch.content.Some? ==> r == ch.content.value
    ensures ch.content.None? ==> r == ""
  {
    if ch.content.Some? then ch.content.value else ""
  }

  /** The next chapter for a project that has `existing` chapters. */
  function NextChapter(projectId: string, existing: nat): (r: ChapterInsert)
    ensures r.number == existing + 1 && r.content == "" && r.wordCount == 0
    ensures r.title == "Chapter " + NatToString(r.number)
  {
    ChapterInsert(projectId, "Chapter " + NatToString(existing + 1), "", existing + 1, 0)
  }

  /** The stored row the insert returns, under the id the database gave it. */
  function Inserted(row: ChapterInsert, id: string): Chapter
  {
    Chapter(id, row.title, Some(row.content), row.number)
  }

  /** `chapters.map(ch => ch.id === id ? { ...ch, content } : ch)`. */
  function ReplaceContent(chapters: seq<Chapter>, id: string, content: string): (r: seq<Chapter>)
    ensures |r| == |chapters|
    ensures forall i :: 0 <= i < |r| ==>
      && r[i].id == chapters[i].id && r[i].title == chapters[i].title && r[i].number == chapters[i].number
      && (chapters[i].id == id ==> r[i].content == Some(content))
      && (chapters[i].id != id ==> r[i] == chapters[i])
  {
    seq(|chapters|, i requires 0 <= i < |chapters| =>
      if chapters[i].id == id then chapters[i].(content := Some(content)) else chapters[i])
  }

  /** The separator the page puts between the text and generated text. */
  const BlankLine := "\n\n"

  class EditorPage {
    /** The `projectId` route parameter; `None` when the route has none. */
    const projectId: Option<string>
    var chapters: seq<Chapter>
    var current: Option<Chapter>
    var content: string
    var saving: bool

    constructor (projectId: Option<string>)
      ensures this.projectId == projectId
      ensures chapters == [] && current.None? && content == "" && !saving
    {
      this.projectId := projectId;
      chapters := [];
      current := None;
      content := "";
      saving := false;
    }

    /**
     * `loadChapters` with the rows the query returned in chapter order, or
     * `None` when it failed. A non-empty list opens its first chapter.
     */
    method LoadChapters(reply: Option<seq<Chapter>>)
      modifies this
      ensures reply.None? ==>
        chapters == old(chapters) && current == old(current) && content == old(content)
      ensures reply.Some? ==> chapters == reply.value
      ensures reply.Some? && reply.value != [] ==>
        current == Some(reply.value[0]) && content == ContentOf(reply.value[0])
      ensures reply.Some? && reply.value == [] ==> current == old(current) && content == old(content)
      ensures saving == old(saving)
    {
      if reply.None? {
        return;
      }
      var rows := reply.value;
      chapters := rows;
      if |rows| > 0 {
        current := Some(rows[0]);
        content := ContentOf(rows[0]);
      }
    }

    /**
     * `handleCreateChapter`, where `newId` is the id of the stored row or `None`
     * when the insert failed. Returns the row sent for insertion; nothing is
     * sent without a project id.
     */
    method CreateChapter(newId: Option<string>) returns (sent: Option<ChapterInsert>)
      modifies this
      ensures projectId.None? || projectId.value == "" ==> sent.None?
      ensures projectId.Some? && projectId.value != "" ==>
        sent == Some(NextChapter(projectId.value, |old(chapters)|))
      ensures sent.Some? && newId.Some? ==>
        && chapters == old(chapters) + [Inserted(sent.value, newId.value)]
        && current == Some(Inserted(sent.value, newId.value))
        && content == ""
      ensures sent.None? || newId.None? ==>
        chapters == old(chapters) && current == old(current) && content == old(content)
      ensures saving == old(saving)
    {
      sent := None;
      if projectId.None? || projectId.value == "" {
        return;
      }
      var row := NextChapter(projectId.value, |chapters|);
      sent := Some(row);
      if newId.None? {
        return;
      }
      var created := Inserted(row, newId.value);
      chapters := chapters + [created];
      current := Some(created);
      content := "";
    }

    /**
     * `handleSaveChapter`, where `fails` says the update was refused. Returns
     * the update sent; nothing is sent without an open chapter. Only a
     * successful update changes the list, and the page is not saving afterwards.
     */
    method SaveChapter(fails: bool) returns (sent: Option<ChapterUpdate>)
      modifies this
      ensures current.None? ==> sent.None? && saving == old(saving)
      ensures current.Some? ==>
        && sent == Some(ChapterUpdate(current.value.id, content, TokenCount(content)))
        && !saving
      ensures chapters == (if sent.None? || fails then old(chapters)
                           else ReplaceContent(old(chapters), sent.value.id, content))
      ensures current == old(current) && content == old(content)
    {
      sent := None;
      if current.None? {
        return;
      }
      saving := true;
      var update := ChapterUpdate(current.value.id, content, TokenCount(content));
      sent := Some(update);
      if !fails {
        chapters := ReplaceContent(chapters, update.id, content);
      }
      saving := false;
    }

    /** `handleSelectChapter`: the chapter becomes current and its text fills the editor. */
    method SelectChapter(ch: Chapter)
      modifies this
      ensures current == Some(ch) && content == ContentOf(ch)
      ensures chapters == old(chapters) && saving == old(saving)
    {
      current := Some(ch);
      content := ContentOf(ch);
    }

    /** `handleAIGenerate`: generated text goes after the current text, a blank line between. */
    method AIGenerate(text: string)
      modifies this
      ensures content == old(content) + BlankLine + text
      ensures chapters == old(chapters) && current == old(current) && saving == old(saving)
    {
      content := content + BlankLine + text;
    }

    /** The word count under the chapter title, the same count the save persists. */
    function DisplayedWordCount(): (r: nat)
      reads this
      ensures r == 0 <==> AllWhitespace(content)
    {
      TokenCount(content)
    }
  }

  // ------------------------------------------------------------ properties

  /** Saving the same text twice leaves the list as saving it once. */
  lemma ReplaceContentIdempotent(chapters: seq<Chapter>, id: string, content: string)
    ensures ReplaceContent(ReplaceContent(chapters, id, content), id, content) == ReplaceContent(chapters, id, content)
  {
    var once := ReplaceContent(chapters, id, content);
    var twice := ReplaceContent(once, id, content);
    forall i | 0 <= i < |chapters| ensures twice[i] == once[i] {
      if chapters[i].id == id {
        assert once[i] == chapters[i].(content := Some(content));
      }
    }
  }

  /** Of two saves of the same chapter, the later text is the one that stays. */
  lemma LaterSaveWins(chapters: seq<Chapter>, id: string, first: string, second: string)
    ensures ReplaceContent(ReplaceContent(chapters, id, first), id, second) == ReplaceContent(chapters, id, second)
  {
    var a := ReplaceContent(ReplaceContent(chapters, id, first), id, second);
    var b := ReplaceContent(chapters, id, second);
    forall i | 0 <= i < |chapters| ensures a[i] == b[i] {
      if chapters[i].id == id {
        assert a[i] == chapters[i].(content := Some(second));
      }
    }
  }

  /**
   * After a save, the sidebar entry of the saved chapter shows the word count
   * the update persisted, and every other entry is as before.
   */
  lemma SidebarShowsSavedCount(chapters: seq<Chapter>, current: Option<Chapter>, id: string, content: string, i: int)
    requires 0 <= i < |chapters|
    ensures var after := Entries(ReplaceContent(chapters, id, content), current);
      && (chapters[i].id == id ==> after[i].words == TokenCount(content))
      && (chapters[i].id != id ==> after[i] == Entries(chapters, current)[i])
  {
  }

  /** A created chapter is numbered after the existing ones, shows no words and is highlighted. */
  lemma CreatedChapterIsNextAndActive(chapters: seq<Chapter>, projectId: string, id: string)
    ensures var ch := Inserted(NextChapter(projectId, |chapters|), id);
      var entries := Entries(chapters + [ch], Some(ch));
      && |entries| == |chapters| + 1
      && entries[|chapters|].number == |chapters| + 1
      && entries[|chapters|].words == 0
      && entries[|chapters|].active
  {
  }

  /** `WordStarts` over a concatenation: the second part starts where the first left off. */
  lemma {:induction false} WordStartsAppend(a: string, b: string, afterSpace: bool)
    ensures WordStarts(a + b, afterSpace) ==
      WordStarts(a, afterSpace) + WordStarts(b, if a == [] then afterSpace else IsWhitespace(a[|a| - 1]))
    decreases |a|
  {
    if a == [] {
      assert a + b == b;
    } else {
      assert (a + b)[0] == a[0];
      assert (a + b)[1..] == a[1..] + b;
      WordStartsAppend(a[1..], b, IsWhitespace(a[0]));
      if |a| > 1 {
        assert a[1..][|a| - 2] == a[|a| - 1];
      }
    }
  }

  /** A blank line starts no word, and the text after it starts as if after white space. */
  lemma BlankLineStartsNoWord(generated: string, afterSpace: bool)
    ensures WordStarts(BlankLine + generated, afterSpace) == WordStarts(generated, true)
  {
    var tail := BlankLine + generated;
    assert tail[0] == '\n' && tail[1..][0] == '\n' && tail[1..][1..] == generated;
  }

  /** The count the page shows is the number of word starts. */
  lemma TokenCountIsWordStarts(s: string)
    ensures TokenCount(s) == WordStarts(s, true)
  {
    TokenCountIsWordRuns(s);
  }

  /** Generated text appended after a blank line adds exactly its own words to the count. */
  lemma AppendAfterBlankLineAddsWords(text: string, generated: string)
    ensures TokenCount(text + BlankLine + generated) == TokenCount(text) + TokenCount(generated)
  {
    var tail := BlankLine + generated;
    assert text + BlankLine + generated == text + tail;
    TokenCountIsWordStarts(text + tail);
    TokenCountIsWordStarts(text);
    TokenCountIsWordStarts(generated);
    WordStartsAppend(text, tail, true);
    BlankLineStartsNoWord(generated, if text == [] then true else IsWhitespace(text[|text| - 1]));
  }
}
