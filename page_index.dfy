/**
 * The page locator of the editor's session store
 * (interactive-preprocessing/src/stores/sessionStore.ts): a flat page index
 * runs over the chapters laid end to end, and the page number inside a
 * chapter is the array position plus one.
 */
module PageIndex {
  import opened Wrappers
  import opened Types

  /** The ledger keys of one chapter's pages, numbered by array position. */
  function ChapterKeys(c: Chapter): seq<string>
  {
    seq(|c.pages|, i requires 0 <= i < |c.pages| => PageKey(c.name, i + 1))
  }

  /** The ledger keys of every page, in flat-index order. */
  function FlatKeys(chapters: seq<Chapter>): seq<string>
  {
    if chapters == [] then []
    else FlatKeys(chapters[..|chapters| - 1]) + ChapterKeys(chapters[|chapters| - 1])
  }

  /** The flat index of the first page of chapter `c`. */
  function Offset(chapters: seq<Chapter>, c: nat): nat
    requires c <= |chapters|
  {
    TotalPages(chapters[..c])
  }

  /** Every chapter has been saved page by page: the key of each position is in the ledger. */
  predicate AllPagesProcessed(chapters: seq<Chapter>, processed: seq<string>)
  {
    forall c :: 0 <= c < |chapters| ==>
      forall n :: 1 <= n <= |chapters[c].pages| ==> PageKey(chapters[c].name, n) in processed
  }

  // ---------------------------------------------------------------------------
  // Facts about the flat layout
  // ---------------------------------------------------------------------------

  /** There is one key per page. */
  lemma {:induction false} FlatKeysLength(chapters: seq<Chapter>)
    ensures |FlatKeys(chapters)| == TotalPages(chapters)
  {
    if chapters != [] {
      FlatKeysLength(chapters[..|chapters| - 1]);
    }
  }

  lemma FlatKeysStep(chapters: seq<Chapter>, k: nat)
    requires k < |chapters|
    ensures FlatKeys(chapters[..k + 1]) == FlatKeys(chapters[..k]) + ChapterKeys(chapters[k])
  {
    assert chapters[..k + 1][..k] == chapters[..k];
  }

  /** The keys of the first `k` chapters come first. */
  lemma {:induction false} FlatKeysPrefix(chapters: seq<Chapter>, k: nat)
    requires k <= |chapters|
    ensures FlatKeys(chapters[..k]) <= FlatKeys(chapters)
  {
    if k < |chapters| {
      var init := chapters[..|chapters| - 1];
      FlatKeysPrefix(init, k);
      assert init[..k] == chapters[..k];
    } else {
      assert chapters[..k] == chapters;
    }
  }

  /** Position `i` of chapter `c` sits at flat index `Offset(c) + i` and carries key `name:(i+1)`. */
  lemma FlatKeysAt(chapters: seq<Chapter>, c: nat, i: nat)
    requires c < |chapters| && i < |chapters[c].pages|
    ensures Offset(chapters, c) + i < |FlatKeys(chapters)|
    ensures FlatKeys(chapters)[Offset(chapters, c) + i] == PageKey(chapters[c].name, i + 1)
  {
    FlatKeysStep(chapters, c);
    FlatKeysLength(chapters[..c]);
    FlatKeysPrefix(chapters, c + 1);
  }

  lemma OffsetMonotonic(chapters: seq<Chapter>, a: nat, b: nat)
    requires a <= b <= |chapters|
    ensures Offset(chapters, a) <= Offset(chapters, b)
  {
    TotalPagesPrefix(chapters[..b], a);
    assert chapters[..b][..a] == chapters[..a];
  }

  lemma OffsetEnds(chapters: seq<Chapter>)
    ensures Offset(chapters, 0) == 0
    ensures Offset(chapters, |chapters|) == TotalPages(chapters)
  {
    assert chapters[..|chapters|] == chapters;
  }

  // ---------------------------------------------------------------------------
  // Locating a flat index (the loop of loadPage)
  // ---------------------------------------------------------------------------

  /** A chapter (by position in the chapter list) and a 1-based page number in it. */
  datatype Location = Location(chapter: nat, pageNum: int)

  /**
   * Walks the chapters in declaration order with a running offset and stops
   * at the first one whose end lies beyond `index`.
   */
  function LocateFrom(chapters: seq<Chapter>, k: nat, offset: int, index: int): (r: Option<Location>)
    ensures r.Some? ==> k <= r.value.chapter < |chapters|
    decreases |chapters| - k
  {
    if k >= |chapters| then None
    else if offset + |chapters[k].pages| > index then Some(Location(k, index - offset + 1))
    else LocateFrom(chapters, k + 1, offset + |chapters[k].pages|, index)
  }

  function Locate(chapters: seq<Chapter>, index: int): (r: Option<Location>)
    ensures r.Some? ==> r.value.chapter < |chapters|
  {
    LocateFrom(chapters, 0, 0, index)
  }

  lemma {:induction false} LocateFromFound(chapters: seq<Chapter>, k: nat, index: int)
    requires k <= |chapters|
    requires Offset(chapters, k) <= index < TotalPages(chapters)
    ensures var r := LocateFrom(chapters, k, Offset(chapters, k), index);
      && r.Some? && k <= r.value.chapter < |chapters|
      && Offset(chapters, r.value.chapter) <= index < Offset(chapters, r.value.chapter + 1)
      && r.value.pageNum == index - Offset(chapters, r.value.chapter) + 1
    decreases |chapters| - k
  {
    OffsetEnds(chapters);
    TotalPagesStep(chapters, k);
    if Offset(chapters, k) + |chapters[k].pages| <= index {
      LocateFromFound(chapters, k + 1, index);
    }
  }

  lemma {:induction false} LocateFromNone(chapters: seq<Chapter>, k: nat, index: int)
    requires k <= |chapters|
    requires index >= TotalPages(chapters)
    ensures LocateFrom(chapters, k, Offset(chapters, k), index) == None
    decreases |chapters| - k
  {
    if k < |chapters| {
      TotalPagesStep(chapters, k);
      OffsetMonotonic(chapters, k + 1, |chapters|);
      OffsetEnds(chapters);
      LocateFromNone(chapters, k + 1, index);
    }
  }

  /**
   * Resolving a valid flat index gives the chapter whose range holds it and a
   * page number in 1..length of that chapter; re-flattening gives the index
   * back, and the ledger key at that index is the key of the located page.
   */
  lemma LocateCorrect(chapters: seq<Chapter>, index: int)
    requires 0 <= index < TotalPages(chapters)
    ensures Locate(chapters, index).Some?
    ensures var loc := Locate(chapters, index).value;
      && loc.chapter < |chapters|
      && 1 <= loc.pageNum <= |chapters[loc.chapter].pages|
      && Offset(chapters, loc.chapter) <= index < Offset(chapters, loc.chapter + 1)
      && Offset(chapters, loc.chapter) + loc.pageNum - 1 == index
      && index < |FlatKeys(chapters)|
      && FlatKeys(chapters)[index] == PageKey(chapters[loc.chapter].name, loc.pageNum)
  {
    OffsetEnds(chapters);
    LocateFromFound(chapters, 0, index);
    var loc := Locate(chapters, index).value;
    TotalPagesStep(chapters, loc.chapter);
    FlatKeysAt(chapters, loc.chapter, loc.pageNum - 1);
  }

  /** Flattening a (chapter, page number) pair and resolving it gives the pair back. */
  lemma LocateInverse(chapters: seq<Chapter>, c: nat, p: int)
    requires c < |chapters| && 1 <= p <= |chapters[c].pages|
    ensures Offset(chapters, c) + p - 1 < TotalPages(chapters)
    ensures Locate(chapters, Offset(chapters, c) + p - 1) == Some(Location(c, p))
  {
    var index := Offset(chapters, c) + p - 1;
    TotalPagesStep(chapters, c);
    OffsetMonotonic(chapters, c + 1, |chapters|);
    OffsetEnds(chapters);
    LocateCorrect(chapters, index);
    var loc := Locate(chapters, index).value;
    if loc.chapter < c {
      OffsetMonotonic(chapters, loc.chapter + 1, c);
    } else if loc.chapter > c {
      OffsetMonotonic(chapters, c + 1, loc.chapter);
    }
  }

  /** Resolution finds nothing exactly when there are no chapters or the index is past the end. */
  lemma LocateNone(chapters: seq<Chapter>, index: int)
    ensures Locate(chapters, index).None? <==> chapters == [] || index >= TotalPages(chapters)
  {
    OffsetEnds(chapters);
    if index >= TotalPages(chapters) {
      LocateFromNone(chapters, 0, index);
    } else if 0 <= index {
      LocateCorrect(chapters, index);
    }
  }

  /** The chapter form and the flat form of "every page is in the ledger" agree. */
  lemma AllProcessedFlat(chapters: seq<Chapter>, processed: seq<string>)
    ensures AllPagesProcessed(chapters, processed) <==>
      forall j :: 0 <= j < |FlatKeys(chapters)| ==> FlatKeys(chapters)[j] in processed
  {
    FlatKeysLength(chapters);
    if AllPagesProcessed(chapters, processed) {
      forall j | 0 <= j < |FlatKeys(chapters)|
        ensures FlatKeys(chapters)[j] in processed
      {
        LocateCorrect(chapters, j);
      }
    } else {
      var c :| 0 <= c < |chapters| &&
        exists n :: 1 <= n <= |chapters[c].pages| && PageKey(chapters[c].name, n) !in processed;
      var n :| 1 <= n <= |chapters[c].pages| && PageKey(chapters[c].name, n) !in processed;
      FlatKeysAt(chapters, c, n - 1);
    }
  }

  // ---------------------------------------------------------------------------
  // findFirstUnprocessedPage
  // ---------------------------------------------------------------------------

  /** The position of the first key that is not in the ledger, or -1 when all are. */
  function FirstMissing(keys: seq<string>, processed: seq<string>): (r: int)
    ensures -1 <= r < |keys|
    ensures r == -1 <==> forall j :: 0 <= j < |keys| ==> keys[j] in processed
    ensures r >= 0 ==> keys[r] !in processed && forall j :: 0 <= j < r ==> keys[j] in processed
  {
    if keys == [] then -1
    else if keys[0] !in processed then 0
    else
      var rest := FirstMissing(keys[1..], processed);
      assert forall j :: 1 <= j < |keys| ==> keys[j] == keys[1..][j - 1];
      if rest == -1 then -1 else rest + 1
  }

  /** The flat index the editor resumes at: the first page whose key is not in the ledger, or -1. */
  function ResumeIndex(chapters: seq<Chapter>, processed: seq<string>): int
  {
    FirstMissing(FlatKeys(chapters), processed)
  }

  /**
   * The resume point: the flat index of the earliest page (chapter order,
   * then array order) whose key `name:(i+1)` is not in the ledger, or -1
   * when every page's key is there.
   */
  method FindFirstUnprocessedPage(session: Session) returns (r: int)
    ensures r == ResumeIndex(session.chapters, session.processedPages)
    ensures r == -1 <==> AllPagesProcessed(session.chapters, session.processedPages)
    ensures r != -1 ==> 0 <= r < TotalPages(session.chapters)
    ensures r != -1 ==>
      && r < |FlatKeys(session.chapters)|
      && FlatKeys(session.chapters)[r] !in session.processedPages
      && forall j :: 0 <= j < r ==> FlatKeys(session.chapters)[j] in session.processedPages
  {
    var chapters, processed := session.chapters, session.processedPages;
    FlatKeysLength(chapters);
    AllProcessedFlat(chapters, processed);
    var index := 0;
    var c := 0;
    OffsetEnds(chapters);
    while c < |chapters|
      invariant 0 <= c <= |chapters|
      invariant index == Offset(chapters, c) <= TotalPages(chapters)
      invariant forall j :: 0 <= j < index ==> FlatKeys(chapters)[j] in processed
    {
      var chapter := chapters[c];
      TotalPagesStep(chapters, c);
      OffsetMonotonic(chapters, c + 1, |chapters|);
      var i := 0;
      while i < |chapter.pages|
        invariant 0 <= i <= |chapter.pages|
        invariant index == Offset(chapters, c) + i <= TotalPages(chapters)
        invariant forall j :: 0 <= j < index ==> FlatKeys(chapters)[j] in processed
      {
        var pageId := PageKey(chapter.name, i + 1);
        FlatKeysAt(chapters, c, i);
        if pageId !in processed {
          return index;
        }
        index := index + 1;
        i := i + 1;
      }
      c := c + 1;
    }
    return -1;
  }
}
