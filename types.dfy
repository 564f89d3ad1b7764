/**
 * The shapes shared by the editor and the server (interactive-preprocessing
 * types/index.ts), the derived page total and the ledger key of a page.
 */
module Types {
  import opened Text

  /** A user-drawn rectangle in image pixels, with its 1-based display order. */
  datatype Column = Column(id: string, x: int, y: int, width: int, height: int, order: int)

  /** A chapter: its name and its page image files, in array order. */
  datatype Chapter = Chapter(name: string, pages: seq<string>)

  /** A page as the server hands it to the editor. */
  datatype Page = Page(
    chapter: string,
    pageNum: int,
    imagePath: string,
    imageData: string,
    columns: seq<Column>,
    processed: bool)

  datatype Status = Active | Paused | Completed

  /** The session as the editor receives it from `GET /api/session`. */
  datatype Session = Session(
    chapters: seq<Chapter>,
    currentPage: int,
    status: Status,
    totalPages: int,
    processedPages: seq<string>)

  /** The number of pages of all chapters laid end to end. */
  function TotalPages(chapters: seq<Chapter>): nat
  {
    if chapters == [] then 0
    else TotalPages(chapters[..|chapters| - 1]) + |chapters[|chapters| - 1].pages|
  }

  /** Adding one chapter adds its page count. */
  lemma TotalPagesStep(chapters: seq<Chapter>, k: nat)
    requires k < |chapters|
    ensures TotalPages(chapters[..k + 1]) == TotalPages(chapters[..k]) + |chapters[k].pages|
  {
    assert chapters[..k + 1][..k] == chapters[..k];
  }

  /** The total of a prefix never exceeds the total of the whole list. */
  lemma {:induction false} TotalPagesPrefix(chapters: seq<Chapter>, k: nat)
    requires k <= |chapters|
    ensures TotalPages(chapters[..k]) <= TotalPages(chapters)
  {
    if k < |chapters| {
      TotalPagesPrefix(chapters[..|chapters| - 1], k);
      assert chapters[..|chapters| - 1][..k] == chapters[..k];
    } else {
      assert chapters[..k] == chapters;
    }
  }

  /** The ledger key `"<chapter>:<pageNum>"` of a page. */
  function PageKey(chapter: string, pageNum: nat): string
  {
    chapter + ":" + NatToString(pageNum)
  }

  /** The colon after the chapter name is the last colon of the key. */
  lemma LastColon(chapter: string, pageNum: nat)
    ensures PageKey(chapter, pageNum)[|chapter|] == ':'
    ensures forall j :: |chapter| < j < |PageKey(chapter, pageNum)| ==> PageKey(chapter, pageNum)[j] != ':'
  {
    var digits := NatToString(pageNum);
    forall j | |chapter| < j < |PageKey(chapter, pageNum)|
      ensures PageKey(chapter, pageNum)[j] != ':'
    {
      assert PageKey(chapter, pageNum)[j] == digits[j - |chapter| - 1];
    }
  }

  /**
   * A ledger key names exactly one page: the number after the last colon has
   * no colon in it, so neither the chapter nor the number can be confused,
   * whatever characters the chapter name holds.
   */
  lemma PageKeyInjective(a: string, m: nat, b: string, n: nat)
    requires PageKey(a, m) == PageKey(b, n)
    ensures a == b && m == n
  {
    var s := PageKey(a, m);
    LastColon(a, m);
    LastColon(b, n);
    assert |a| == |b| by {
      assert |b| < |s| ==> s[|b|] == ':';
      assert |a| < |s| ==> s[|a|] == ':';
    }
    assert a == s[..|a|] == b;
    assert NatToString(m) == s[|a| + 1..] == NatToString(n);
    NatToStringInjective(m, n);
  }
}
