/**
 * The editor's session store (interactive-preprocessing/src/stores/sessionStore.ts):
 * the loaded session, the page on screen, the flat page cursor and the
 * save-in-flight flag, with the operations that move the cursor.
 *
 * Each asynchronous operation is modelled as one atomic step. The calls to
 * the server are parameters: `fetch(chapter, pageNum)` is `fetchPage`, with
 * `None` standing for a rejected promise; `saveOk` says whether `savePage`
 * resolves; `mask` is what the canvas mask getter returns. Every call of
 * `savePage` is appended to `outbox`, every `console.error` to `errors`.
 */
module SessionStore {
  import opened Wrappers
  import opened Types
  import opened PageIndex

  /** The arguments of one `savePage` call. */
  datatype SaveRequest = SaveRequest(
    chapter: string,
    pageNum: int,
    columns: seq<Column>,
    maskData: Option<string>)

  /** The page on screen and the flat index it was loaded from. */
  datatype Cursor = Cursor(page: Option<Page>, index: int)

  const LoadSessionFailed := "Failed to load session"
  const SavePageFailed := "Failed to save page"

  /**
   * What `loadPage(index)` does to the cursor, and whether it rejects: with
   * no session, or when no chapter's range reaches `index`, nothing happens;
   * otherwise the located page is fetched, and it replaces the cursor unless
   * the fetch rejects.
   */
  function Load(session: Option<Session>, cur: Cursor, index: int, fetch: (string, int) -> Option<Page>)
    : (r: (Cursor, bool))
    ensures r.1 ==> r.0 == cur
    ensures r.0 == cur || (r.0.index == index && r.0.page.Some?)
    ensures r.0 != cur || r.1 ==> session.Some? && Locate(session.value.chapters, index).Some?
    ensures r.0 != cur ==> r.0.page == fetch(session.value.chapters[Locate(session.value.chapters, index).value.chapter].name,
                                             Locate(session.value.chapters, index).value.pageNum)
  {
    if session.None? then (cur, false)
    else
      match Locate(session.value.chapters, index)
      case None => (cur, false)
      case Some(loc) =>
        var fetched := fetch(session.value.chapters[loc.chapter].name, loc.pageNum);
        if fetched.None? then (cur, true) else (Cursor(fetched, index), false)
  }

  /** A session's own page total agrees with its chapter list, as the server computes it. */
  predicate Consistent(s: Session)
  {
    s.totalPages == TotalPages(s.chapters)
  }

  /** The saves `saveCurrentPage` sends: one for the page on screen, none without a page or while saving. */
  function SaveRequests(page: Option<Page>, isSaving: bool, mask: Option<string>): seq<SaveRequest>
  {
    if page.None? || isSaving then []
    else [SaveRequest(page.value.chapter, page.value.pageNum, page.value.columns, mask)]
  }

  /**
   * A valid flat index of a loaded session is resolved to a page numbered
   * 1..length of its chapter by array position; when that page is fetched,
   * it becomes the page on screen and the cursor becomes `index`.
   */
  lemma LoadInRange(session: Session, cur: Cursor, index: int, fetch: (string, int) -> Option<Page>)
    requires 0 <= index < TotalPages(session.chapters)
    ensures Locate(session.chapters, index).Some?
    ensures var loc := Locate(session.chapters, index).value;
      && 1 <= loc.pageNum <= |session.chapters[loc.chapter].pages|
      && var fetched := fetch(session.chapters[loc.chapter].name, loc.pageNum);
      && Load(Some(session), cur, index, fetch)
        == if fetched.None? then (cur, true) else (Cursor(fetched, index), false)
  {
    LocateCorrect(session.chapters, index);
  }

  /** Past the last page, or with no session, `loadPage` leaves the cursor alone and does not reject. */
  lemma LoadOutOfRange(session: Option<Session>, cur: Cursor, index: int, fetch: (string, int) -> Option<Page>)
    requires session.Some? ==> index >= TotalPages(session.value.chapters)
    ensures Load(session, cur, index, fetch) == (cur, false)
  {
    if session.Some? {
      LocateNone(session.value.chapters, index);
    }
  }

  class Store {
    var session: Option<Session>
    var currentPage: Option<Page>
    var pageIndex: int
    var isSaving: bool
    /** Every `savePage` call made, in order. */
    var outbox: seq<SaveRequest>
    /** Every `console.error` message, in order. */
    var errors: seq<string>

    constructor ()
      ensures session == None && currentPage == None && pageIndex == 0 && !isSaving
      ensures outbox == [] && errors == []
    {
      session, currentPage, pageIndex, isSaving := None, None, 0, false;
      outbox, errors := [], [];
    }

    function CanGoNext(): bool
      reads this
    {
      session.Some? && pageIndex < session.value.totalPages - 1
    }

    function CanGoPrev(): bool
      reads this
    {
      pageIndex > 0
    }

    method LoadPage(index: int, fetch: (string, int) -> Option<Page>) returns (threw: bool)
      modifies this`currentPage, this`pageIndex
      ensures (Cursor(currentPage, pageIndex), threw)
        == Load(session, old(Cursor(currentPage, pageIndex)), index, fetch)
    {
      if session.None? {
        return false;
      }
      var chapters := session.value.chapters;
      var currentIndex := 0;
      var k := 0;
      while k < |chapters|
        invariant k <= |chapters|
        invariant LocateFrom(chapters, k, currentIndex, index) == Locate(chapters, index)
      {
        var chapter := chapters[k];
        if currentIndex + |chapter.pages| > index {
          var pageNumInChapter := index - currentIndex + 1;
          var pageData := fetch(chapter.name, pageNumInChapter);
          if pageData.None? {
            return true;
          }
          currentPage := pageData;
          pageIndex := index;
          return false;
        }
        currentIndex := currentIndex + |chapter.pages|;
        k := k + 1;
      }
      return false;
    }

    /**
     * Sends the page on screen to the server unless there is none or a save
     * is already in flight; a failed save is only logged, and the flag is
     * back to what it was when the call returns.
     */
    method SaveCurrentPage(mask: Option<string>, saveOk: bool)
      modifies this`isSaving, this`outbox, this`errors
      ensures isSaving == old(isSaving)
      ensures outbox == old(outbox) + SaveRequests(currentPage, old(isSaving), mask)
      ensures errors == old(errors)
        + if SaveRequests(currentPage, old(isSaving), mask) == [] || saveOk then [] else [SavePageFailed]
    {
      var page := currentPage;
      if page.None? || isSaving {
        return;
      }
      isSaving := true;
      outbox := outbox + [SaveRequest(page.value.chapter, page.value.pageNum, page.value.columns, mask)];
      if !saveOk {
        errors := errors + [SavePageFailed];
      }
      isSaving := false;
    }

    /**
     * At the last page or without a session: nothing at all. Otherwise the
     * page on screen is saved (a failed save does not stop it) and the page
     * after the cursor is loaded.
     */
    method NextPage(mask: Option<string>, saveOk: bool, fetch: (string, int) -> Option<Page>)
      returns (threw: bool)
      modifies this`isSaving, this`outbox, this`errors, this`currentPage, this`pageIndex
      ensures session == old(session) && isSaving == old(isSaving)
      ensures !old(CanGoNext()) ==>
        && !threw && outbox == old(outbox) && errors == old(errors)
        && currentPage == old(currentPage) && pageIndex == old(pageIndex)
      ensures old(CanGoNext()) ==>
        && outbox == old(outbox) + SaveRequests(old(currentPage), old(isSaving), mask)
        && errors == old(errors)
          + (if SaveRequests(old(currentPage), old(isSaving), mask) == [] || saveOk then [] else [SavePageFailed])
        && (Cursor(currentPage, pageIndex), threw)
          == Load(session, old(Cursor(currentPage, pageIndex)), old(pageIndex) + 1, fetch)
    {
      if session.None? || pageIndex >= session.value.totalPages - 1 {
        return false;
      }
      SaveCurrentPage(mask, saveOk);
      threw := LoadPage(pageIndex + 1, fetch);
    }

    /** At the first page: nothing at all. Otherwise save, then load the page before the cursor. */
    method PrevPage(mask: Option<string>, saveOk: bool, fetch: (string, int) -> Option<Page>)
      returns (threw: bool)
      modifies this`isSaving, this`outbox, this`errors, this`currentPage, this`pageIndex
      ensures session == old(session) && isSaving == old(isSaving)
      ensures !old(CanGoPrev()) ==>
        && !threw && outbox == old(outbox) && errors == old(errors)
        && currentPage == old(currentPage) && pageIndex == old(pageIndex)
      ensures old(CanGoPrev()) ==>
        && outbox == old(outbox) + SaveRequests(old(currentPage), old(isSaving), mask)
        && errors == old(errors)
          + (if SaveRequests(old(currentPage), old(isSaving), mask) == [] || saveOk then [] else [SavePageFailed])
        && (Cursor(currentPage, pageIndex), threw)
          == Load(session, old(Cursor(currentPage, pageIndex)), old(pageIndex) - 1, fetch)
    {
      if pageIndex <= 0 {
        return false;
      }
      SaveCurrentPage(mask, saveOk);
      threw := LoadPage(pageIndex - 1, fetch);
    }

    /**
     * Loads the session (`None` when `fetchSession` rejects) and shows the
     * first page not in the ledger, or the first page when all are; any
     * failure is only logged.
     */
    method InitSession(data: Option<Session>, fetch: (string, int) -> Option<Page>)
      modifies this`session, this`currentPage, this`pageIndex, this`errors
      ensures data.None? ==>
        && session == old(session) && currentPage == old(currentPage) && pageIndex == old(pageIndex)
        && errors == old(errors) + [LoadSessionFailed]
      ensures data.Some? ==> session == data
      ensures data.Some? ==>
        var first := ResumeIndex(data.value.chapters, data.value.processedPages);
        var target := if first != -1 then first else 0;
        if first == -1 && data.value.totalPages <= 0 then
          && currentPage == old(currentPage) && pageIndex == old(pageIndex) && errors == old(errors)
        else
          var (cur, threw) := Load(data, old(Cursor(currentPage, pageIndex)), target, fetch);
          && Cursor(currentPage, pageIndex) == cur
          && errors == old(errors) + if threw then [LoadSessionFailed] else []
    {
      if data.None? {
        errors := errors + [LoadSessionFailed];
        return;
      }
      session := data;
      var firstUnprocessed := FindFirstUnprocessedPage(data.value);
      var threw := false;
      if firstUnprocessed != -1 {
        threw := LoadPage(firstUnprocessed, fetch);
      } else if data.value.totalPages > 0 {
        threw := LoadPage(0, fetch);
      }
      if threw {
        errors := errors + [LoadSessionFailed];
      }
    }
  }

  /**
   * Moving forward from a consistent session: when the page after the cursor
   * is fetched, the cursor advances by exactly one, whether or not the save
   * before it succeeded.
   */
  lemma NextPageAdvances(s: Session, cur: Cursor, fetch: (string, int) -> Option<Page>)
    requires Consistent(s)
    requires 0 <= cur.index < s.totalPages - 1
    requires var loc := Locate(s.chapters, cur.index + 1);
      loc.Some? && fetch(s.chapters[loc.value.chapter].name, loc.value.pageNum).Some?
    ensures Load(Some(s), cur, cur.index + 1, fetch).0.index == cur.index + 1
    ensures !Load(Some(s), cur, cur.index + 1, fetch).1
  {
    LoadInRange(s, cur, cur.index + 1, fetch);
  }

  /** Moving back from a consistent session likewise retreats by exactly one when the page is fetched. */
  lemma PrevPageRetreats(s: Session, cur: Cursor, fetch: (string, int) -> Option<Page>)
    requires Consistent(s)
    requires 0 < cur.index <= s.totalPages
    requires var loc := Locate(s.chapters, cur.index - 1);
      loc.Some? && fetch(s.chapters[loc.value.chapter].name, loc.value.pageNum).Some?
    ensures Load(Some(s), cur, cur.index - 1, fetch).0.index == cur.index - 1
    ensures !Load(Some(s), cur, cur.index - 1, fetch).1
  {
    LoadInRange(s, cur, cur.index - 1, fetch);
  }

  /**
   * On start-up with a consistent session that still has unsaved pages, the
   * page shown (when it can be fetched) is the earliest page whose key is
   * not in the ledger.
   */
  lemma InitResumesAtFirstUnprocessed(s: Session, cur: Cursor, fetch: (string, int) -> Option<Page>)
    requires !AllPagesProcessed(s.chapters, s.processedPages)
    requires var loc := Locate(s.chapters, ResumeIndex(s.chapters, s.processedPages));
      loc.Some? && fetch(s.chapters[loc.value.chapter].name, loc.value.pageNum).Some?
    ensures var r := ResumeIndex(s.chapters, s.processedPages);
      && 0 <= r < TotalPages(s.chapters)
      && Load(Some(s), cur, r, fetch).0.index == r
      && FlatKeys(s.chapters)[r] !in s.processedPages
  {
    AllProcessedFlat(s.chapters, s.processedPages);
    FlatKeysLength(s.chapters);
    var r := ResumeIndex(s.chapters, s.processedPages);
    LoadInRange(s, cur, r, fetch);
  }
}
