/** The pagination loops (worshiptools.py and churchtools.py, _get_all) against a
    server that may answer anything. */
module Pagination {
  import opened Prelude

  type Doc = string

  const MAX_PAGES: nat := 500
  const MAX_RECORDS: nat := 50000
  const MAX_BYTES: nat := 32 * 1024 * 1024

  datatype Failure = BadPageSize | RequestFailed | NotAList | NotAMapping | TooManyPages | BadTotal | PageTooLong
    | LimitExceeded | SnapshotTooLarge | EmptyPage | PageExceedsTotal | NoProgress | RepeatedPage | NoMetadata | NoAdvance

  datatype Result<T> = Ok(value: T) | Err(error: Failure)

  // Offset pagination.

  /** One answer: the documents (None where the field is not a list), whether each of
      them is an object, the total, if it is a number, and the size in bytes. */
  datatype Page = Broken | Page(docs: Option<seq<Doc>>, objects: bool, total: Option<int>, bytes: nat)

  /** What the server answers to the k-th request, for the offset asked. */
  type Server = (nat, nat) -> Page

  function DocsOf(page: Page): seq<Doc> {
    if page.Page? && page.docs.Some? then page.docs.value else []
  }

  /** The documents of the first k answers, each asked for at the offset reached. */
  function Collected(server: Server, k: nat): seq<Doc> {
    if k == 0 then [] else Collected(server, k - 1) + DocsOf(server(k - 1, |Collected(server, k - 1)|))
  }

  function Answer(server: Server, k: nat): Page {
    server(k, |Collected(server, k)|)
  }

  /** The size of the first k answers. */
  function Size(server: Server, k: nat): nat {
    if k == 0 then 0 else Size(server, k - 1) + (if Answer(server, k - 1).Page? then Answer(server, k - 1).bytes else 0)
  }

  /** The k-th answer is a page of at most `rows` objects that fits what came before, what
      it announces, and every limit; it is not empty while there is more to come. */
  predicate Usable(server: Server, rows: int, k: nat) {
    var page, before, after := Answer(server, k), |Collected(server, k)|, |Collected(server, k + 1)|;
    && page.Page? && page.docs.Some? && page.objects && page.total.Some?
    && |page.docs.value| <= rows && after <= page.total.value
    && page.total.value <= 500 * rows && page.total.value <= 50000 && Size(server, k + 1) <= 33554432
    && (before < page.total.value ==> page.docs.value != [])
  }

  /** The k-th answer announces more than has been collected with it. */
  predicate More(server: Server, k: nat) {
    Answer(server, k).Page? && Answer(server, k).total.Some? && |Collected(server, k + 1)| < Answer(server, k).total.value
  }

  /** The first n answers are usable and complete the list, no fewer do. */
  ghost predicate Completes(server: Server, rows: int, n: nat) {
    && 1 <= n <= 500 && !More(server, n - 1)
    && (forall k :: 0 <= k < n ==> Usable(server, rows, k))
    && forall k :: 0 <= k < n - 1 ==> More(server, k)
  }

  ghost predicate Goes(server: Server, rows: int, n: nat) {
    forall k :: 0 <= k < n ==> Usable(server, rows, k) && More(server, k)
  }

  lemma GoesOn(server: Server, rows: int, n: nat)
    requires Goes(server, rows, n) && Usable(server, rows, n) && n < 500
    ensures if More(server, n) then Goes(server, rows, n + 1) else Completes(server, rows, n + 1)
  {
    hide Usable, More;
  }

  /** After an unusable answer, or too many, nothing completes the list any more. */
  lemma NeverCompletes(server: Server, rows: int, n: nat)
    requires Goes(server, rows, n) && (n >= 500 || !Usable(server, rows, n))
    ensures !exists m :: Completes(server, rows, m)
  {
    hide Usable, More;
  }

  lemma UsableIs(server: Server, rows: int, k: nat, result: seq<Doc>, bytes: nat)
    requires result == Collected(server, k) && bytes == Size(server, k)
    ensures var page := server(k, |result|);
            && (Usable(server, rows, k) <==>
                  && page.Page? && page.docs.Some? && page.objects && page.total.Some?
                  && |page.docs.value| <= rows && |result| + |page.docs.value| <= page.total.value
                  && page.total.value <= 500 * rows && page.total.value <= 50000 && bytes + page.bytes <= 33554432
                  && (|result| < page.total.value ==> page.docs.value != []))
            && (page.Page? ==> Size(server, k + 1) == bytes + page.bytes)
            && (page.Page? && page.docs.Some? && page.total.Some? ==>
                  (More(server, k) <==> |result| + |page.docs.value| < page.total.value))
  {
    assert |Collected(server, k + 1)| == |result| + |DocsOf(server(k, |result|))|;
  }

  const PAGE_BYTES: nat := MAX_BYTES / MAX_PAGES

  /** A server that serves `all` in full pages, within every limit. */
  ghost predicate Serves(server: Server, rows: int, all: seq<Doc>) {
    && rows >= 1 && |all| <= MAX_RECORDS && |all| <= rows * MAX_PAGES
    && forall k: nat, start: nat :: start <= |all| ==>
         && server(k, start).Page? && server(k, start).objects && server(k, start).total == Some(|all|)
         && server(k, start).bytes <= PAGE_BYTES
         && server(k, start).docs == Some(all[start..if start + rows < |all| then start + rows else |all|])
  }

  /** How far the loop has come with a server that serves `all`. */
  ghost predicate InStep(rows: int, all: seq<Doc>, page: nat, result: seq<Doc>, bytes: nat) {
    && result <= all && bytes <= page * PAGE_BYTES && (|result| == |all| || |result| == page * rows)
  }

  lemma ServedPage(server: Server, rows: int, all: seq<Doc>, page: nat, result: seq<Doc>, bytes: nat)
    requires Serves(server, rows, all) && InStep(rows, all, page, result, bytes)
    requires |result| < |all| || page == 0
    ensures var response := server(page, |result|);
            && page < MAX_PAGES && response.Page? && response.objects && response.total == Some(|all|)
            && response.docs.Some? && |response.docs.value| <= rows
            && (|result| < |all| ==> response.docs.value != [])
            && |result| + |response.docs.value| <= |all| <= MAX_RECORDS && |all| <= rows * MAX_PAGES
            && bytes + response.bytes <= MAX_BYTES
            && InStep(rows, all, page + 1, result + response.docs.value, bytes + response.bytes)
  {
    var end := if |result| + rows < |all| then |result| + rows else |all|;
    assert server(page, |result|).docs == Some(all[|result|..end]);
    PageCounts(page, rows, |result|, |all|);
    PageExtends(result, all, end);
  }

  lemma PageCounts(page: nat, rows: int, start: nat, total: nat)
    requires rows >= 1 && total <= rows * MAX_PAGES && (start < total || page == 0)
    requires start == total || start == page * rows
    ensures page < MAX_PAGES && (page + 1) * rows == page * rows + rows
    ensures (page + 1) * PAGE_BYTES == page * PAGE_BYTES + PAGE_BYTES <= MAX_BYTES
  {
    if start < total {
      assert page * rows < MAX_PAGES * rows;
    }
  }

  lemma PageExtends(result: seq<Doc>, all: seq<Doc>, end: nat)
    requires result <= all && |result| <= end <= |all|
    ensures result + all[|result|..end] <= all
  {
    assert result + all[|result|..end] == all[..end];
  }

  lemma ServedStart(server: Server, rows: int, all: seq<Doc>)
    requires Serves(server, rows, all)
    ensures rows >= 1 && InStep(rows, all, 0, [], 0)
  {
  }

  lemma ServedEnd(rows: int, all: seq<Doc>, page: nat, result: seq<Doc>, bytes: nat)
    requires InStep(rows, all, page, result, bytes) && |result| >= |all|
    ensures result == all
  {
  }

  lemma AnswerIs(server: Server, k: nat, response: Page)
    requires response == server(k, |Collected(server, k)|)
    ensures Answer(server, k) == response
    ensures response.Page? && response.docs.Some? ==> DocsOf(response) == response.docs.value
  {
  }

  lemma CollectedNext(server: Server, k: nat)
    ensures Collected(server, 0) == []
    ensures Collected(server, k + 1) == Collected(server, k) + DocsOf(Answer(server, k))
  {
  }

  lemma Limits()
    ensures MAX_PAGES == 500 && MAX_RECORDS == 50000 && MAX_BYTES == 33554432
  {
  }

  lemma SizeStarts(server: Server)
    ensures Size(server, 0) == 0
    ensures forall rows :: Goes(server, rows, 0)
  {
  }

  /** The WorshipTools loop: it succeeds if and only if some number of answers, each asked
      for where the ones before ended, completes the list.  `asked` are the offsets it requested. */
  method GetAllByOffset(server: Server, rows: Option<int>, ghost all: seq<Doc>)
    returns (r: Result<seq<Doc>>, ghost asked: seq<nat>)
    ensures |asked| <= MAX_PAGES
    ensures forall k :: 0 <= k < |asked| ==> asked[k] == |Collected(server, k)|
    ensures r.Ok? ==>
              && |asked| >= 1 && r.value == Collected(server, |asked|)
              && |r.value| <= MAX_RECORDS && Answer(server, |asked| - 1).Page?
              && Answer(server, |asked| - 1).total == Some(|r.value|)
    ensures r.Ok? ==> rows.Some? && rows.value >= 1 && Completes(server, rows.value, |asked|)
    ensures r.Err? ==> !(rows.Some? && rows.value >= 1 && exists n :: Completes(server, rows.value, n))
    ensures rows.Some? && Serves(server, rows.value, all) ==> r == Ok(all)
  {
    hide *;
    CollectedNext(server, 0);
    SizeStarts(server);
    Limits();
    if rows.Some? && Serves(server, rows.value, all) {
      ServedStart(server, rows.value, all);
    }
    asked := [];
    if rows.None? || rows.value < 1 {
      return Err(BadPageSize), asked;
    }
    var result: seq<Doc> := [];
    var start, total, page := 0, 1, 0;
    var bytes: nat := 0;
    while start < total
      invariant 0 <= page <= MAX_PAGES && |asked| == page && start == |result|
      invariant result == Collected(server, page) && |result| <= MAX_RECORDS
      invariant forall k :: 0 <= k < |asked| ==> asked[k] == |Collected(server, k)|
      invariant page == 0 ==> total == 1
      invariant page > 0 ==> Answer(server, page - 1).Page? && Answer(server, page - 1).total == Some(total) && start <= total
      invariant bytes == Size(server, page)
      invariant if page == 0 || start < total then Goes(server, rows.value, page) else Completes(server, rows.value, page)
      invariant Serves(server, rows.value, all) ==>
                  InStep(rows.value, all, page, result, bytes) && (page > 0 ==> total == |all|)
      decreases MAX_PAGES - page
    {
      UsableIs(server, rows.value, page, result, bytes);
      if page >= 500 || !Usable(server, rows.value, page) {
        NeverCompletes(server, rows.value, page);
      } else {
        GoesOn(server, rows.value, page);
      }
      if Serves(server, rows.value, all) {
        ServedPage(server, rows.value, all, page, result, bytes);
      }
      page := page + 1;
      if page > MAX_PAGES {
        return Err(TooManyPages), asked;
      }
      var response := server(page - 1, start);
      asked := asked + [start];
      if response.Broken? {
        return Err(RequestFailed), asked;
      }
      if response.docs.None? {
        return Err(NotAList), asked;
      }
      var docs := response.docs.value;
      if response.total.None? || response.total.value < 0 {
        return Err(BadTotal), asked;
      }
      total := response.total.value;
      if |docs| > rows.value {
        return Err(PageTooLong), asked;
      }
      if total > rows.value * MAX_PAGES || total > MAX_RECORDS || |result| + |docs| > MAX_RECORDS {
        return Err(LimitExceeded), asked;
      }
      bytes := bytes + response.bytes;
      if bytes > MAX_BYTES {
        return Err(SnapshotTooLarge), asked;
      }
      if total > start && docs == [] {
        return Err(EmptyPage), asked;
      }
      if |result| + |docs| > total {
        return Err(PageExceedsTotal), asked;
      }
      if !response.objects {
        return Err(NotAMapping), asked;
      }
      CollectedNext(server, page - 1);
      AnswerIs(server, page - 1, response);
      result := result + docs;
      var next := |result|;
      if next <= start && next < total {
        return Err(NoProgress), asked;
      }
      start := next;
    }
    if Serves(server, rows.value, all) {
      ServedEnd(rows.value, all, page, result, bytes);
    }
    r := Ok(result);
  }

  // Page-number pagination.

  datatype Meta = NoMeta | NotNumeric | LastPage(number: int)

  datatype Numbered = Failed | Numbered(data: Option<seq<Doc>>, objects: bool, meta: Meta, bytes: nat)

  /** What the server answers to a request for page p. */
  type Pages = nat -> Numbered

  function DataOf(page: Numbered): seq<Doc> {
    if page.Numbered? && page.data.Some? then page.data.value else []
  }

  /** The data of pages 1 to n. */
  function UpTo(pages: Pages, n: nat): seq<Doc> {
    if n == 0 then [] else UpTo(pages, n - 1) + DataOf(pages(n))
  }

  function SizeTo(pages: Pages, n: nat): nat {
    if n == 0 then 0 else SizeTo(pages, n - 1) + (if pages(n).Numbered? then pages(n).bytes else 0)
  }

  /** Page p is a list of at most `limit` objects, different from every page before, within
      every limit, and says which page is the last one -- or need not say. */
  predicate UsablePage(pages: Pages, limit: int, allowMissing: bool, p: nat) {
    var page := pages(p);
    && page.Numbered? && page.data.Some? && page.objects && |page.data.value| <= limit
    && |UpTo(pages, p)| <= 50000 && SizeTo(pages, p) <= 33554432
    && (forall q :: 1 <= q < p ==> DataOf(pages(q)) != page.data.value)
    && match page.meta
       case NoMeta => allowMissing
       case NotNumeric => false
       case LastPage(number) => p <= number <= 500
  }

  predicate MorePages(pages: Pages, p: nat) {
    pages(p).Numbered? && pages(p).meta.LastPage? && pages(p).meta.number > p
  }

  /** The first n pages are usable, and the n-th says that it is the last. */
  ghost predicate LastsTo(pages: Pages, limit: int, allowMissing: bool, n: nat) {
    && 1 <= n <= 500 && !MorePages(pages, n)
    && (forall p :: 1 <= p <= n ==> UsablePage(pages, limit, allowMissing, p))
    && forall p :: 1 <= p < n ==> MorePages(pages, p)
  }

  ghost predicate LeadsOn(pages: Pages, limit: int, allowMissing: bool, n: nat) {
    forall p :: 1 <= p <= n ==> UsablePage(pages, limit, allowMissing, p) && MorePages(pages, p)
  }

  lemma LeadsNext(pages: Pages, limit: int, allowMissing: bool, n: nat)
    requires LeadsOn(pages, limit, allowMissing, n) && UsablePage(pages, limit, allowMissing, n + 1) && n < 500
    ensures if MorePages(pages, n + 1) then LeadsOn(pages, limit, allowMissing, n + 1)
            else LastsTo(pages, limit, allowMissing, n + 1)
  {
    hide UsablePage, MorePages;
  }

  lemma LeadsNowhere(pages: Pages, limit: int, allowMissing: bool, n: nat)
    requires LeadsOn(pages, limit, allowMissing, n) && (n >= 500 || !UsablePage(pages, limit, allowMissing, n + 1))
    ensures !exists m :: LastsTo(pages, limit, allowMissing, m)
  {
    hide UsablePage, MorePages;
  }

  lemma UsablePageIs(pages: Pages, limit: int, allowMissing: bool, p: nat, result: seq<Doc>, bytes: nat, seen: set<seq<Doc>>)
    requires p >= 1 && result == UpTo(pages, p - 1) && bytes == SizeTo(pages, p - 1)
    requires seen == set q | 1 <= q < p :: DataOf(pages(q))
    ensures var page := pages(p);
            && (UsablePage(pages, limit, allowMissing, p) <==>
                  && page.Numbered? && page.data.Some? && page.objects && |page.data.value| <= limit
                  && |result| + |page.data.value| <= 50000 && bytes + page.bytes <= 33554432 && page.data.value !in seen
                  && (page.meta.NoMeta? ==> allowMissing) && !page.meta.NotNumeric?
                  && (page.meta.LastPage? ==> p <= page.meta.number <= 500))
            && (page.Numbered? ==> SizeTo(pages, p) == bytes + page.bytes)
            && (page.Numbered? ==> (MorePages(pages, p) <==> page.meta.LastPage? && page.meta.number > p))
  {
    assert UpTo(pages, p) == result + DataOf(pages(p));
  }

  lemma PagesStart(pages: Pages)
    ensures SizeTo(pages, 0) == 0
    ensures forall limit, allowMissing :: LeadsOn(pages, limit, allowMissing, 0)
  {
  }

  /** A server with n pages, within every limit, no two of them alike. */
  ghost predicate ServesPages(pages: Pages, limit: int, n: nat) {
    && limit >= 1 && 1 <= n <= MAX_PAGES
    && (forall p :: 1 <= p <= n ==> ServesPage(pages, limit, n, p))
    && forall p, q :: 1 <= p < q <= n ==> DataOf(pages(p)) != DataOf(pages(q))
  }

  ghost predicate ServesPage(pages: Pages, limit: int, n: nat, p: nat) {
    var page := pages(p);
    && page.Numbered? && page.data.Some? && page.objects && page.meta == LastPage(n) && page.bytes <= PAGE_BYTES
    && |page.data.value| <= limit && |UpTo(pages, p)| <= MAX_RECORDS
  }

  lemma PageServed(pages: Pages, limit: int, n: nat, p: nat, seen: set<seq<Doc>>, bytes: nat)
    requires ServesPages(pages, limit, n) && 1 <= p <= n && bytes <= (p - 1) * PAGE_BYTES
    requires seen == set q | 1 <= q < p :: DataOf(pages(q))
    ensures var page := pages(p);
            && page.Numbered? && page.data.Some? && page.objects && page.meta == LastPage(n)
            && |page.data.value| <= limit && |UpTo(pages, p - 1)| + |page.data.value| <= MAX_RECORDS
            && bytes + page.bytes <= p * PAGE_BYTES <= MAX_BYTES && page.data.value !in seen
  {
    assert ServesPage(pages, limit, n, p);
    assert p * PAGE_BYTES == (p - 1) * PAGE_BYTES + PAGE_BYTES;
    assert p * PAGE_BYTES <= MAX_PAGES * PAGE_BYTES;
  }

  lemma SeenNext(pages: Pages, p: nat)
    requires p >= 1
    ensures (set q | 1 <= q < p + 1 :: DataOf(pages(q))) == (set q | 1 <= q < p :: DataOf(pages(q))) + {DataOf(pages(p))}
  {
  }

  lemma AtLeastOne(pages: Pages, limit: int, n: nat)
    requires ServesPages(pages, limit, n)
    ensures limit >= 1 && 1 <= n <= MAX_PAGES
  {
  }

  lemma UpToNext(pages: Pages, n: nat)
    ensures UpTo(pages, 0) == [] && UpTo(pages, n + 1) == UpTo(pages, n) + DataOf(pages(n + 1))
  {
  }

  /** The ChurchTools loop: it succeeds if and only if the pages lead on to one that is the
      last.  `read` is the number of pages requested. */
  method GetAllByPage(pages: Pages, limit: Option<int>, allowMissing: bool, ghost n: nat)
    returns (r: Result<seq<Doc>>, ghost read: nat)
    ensures read <= MAX_PAGES
    ensures r.Ok? ==>
              && read >= 1 && r.value == UpTo(pages, read) && |r.value| <= MAX_RECORDS
              && (forall p, q :: 1 <= p < q <= read ==> DataOf(pages(p)) != DataOf(pages(q)))
              && pages(read).Numbered?
              && (pages(read).meta == LastPage(read) || (pages(read).meta.NoMeta? && allowMissing))
    ensures r.Ok? ==> limit.Some? && limit.value >= 1 && LastsTo(pages, limit.value, allowMissing, read)
    ensures r.Err? ==> !(limit.Some? && limit.value >= 1 && exists m :: LastsTo(pages, limit.value, allowMissing, m))
    ensures limit.Some? && ServesPages(pages, limit.value, n) ==> r == Ok(UpTo(pages, n))
  {
    hide UpTo, ServesPages, ServesPage, UsablePage, MorePages, LastsTo, LeadsOn, SizeTo;
    PagesStart(pages);
    if limit.Some? && ServesPages(pages, limit.value, n) {
      AtLeastOne(pages, limit.value, n);
    }
    UpToNext(pages, 0);
    read := 0;
    if limit.None? || limit.value < 1 {
      return Err(BadPageSize), read;
    }
    var result: seq<Doc> := [];
    var page, lastPage := 1, 1;
    var bytes: nat := 0;
    var seen: set<seq<Doc>> := {};
    while page <= lastPage
      invariant 1 <= page <= MAX_PAGES + 1 && read == page - 1 && page - 1 <= lastPage <= MAX_PAGES
      invariant result == UpTo(pages, page - 1) && |result| <= MAX_RECORDS
      invariant seen == set p | 1 <= p < page :: DataOf(pages(p))
      invariant forall p, q :: 1 <= p < q < page ==> DataOf(pages(p)) != DataOf(pages(q))
      invariant page > 1 ==> pages(page - 1).Numbered? && pages(page - 1).meta == LastPage(lastPage)
      invariant page == 1 ==> lastPage == 1
      invariant ServesPages(pages, limit.value, n) ==>
                  page <= n + 1 && (page > 1 ==> lastPage == n) && bytes <= (page - 1) * PAGE_BYTES
      invariant bytes == SizeTo(pages, page - 1)
      invariant if page <= lastPage then LeadsOn(pages, limit.value, allowMissing, page - 1)
                else LastsTo(pages, limit.value, allowMissing, page - 1)
      decreases MAX_PAGES + 1 - page
    {
      UsablePageIs(pages, limit.value, allowMissing, page, result, bytes, seen);
      if page > 500 || !UsablePage(pages, limit.value, allowMissing, page) {
        LeadsNowhere(pages, limit.value, allowMissing, page - 1);
      } else {
        LeadsNext(pages, limit.value, allowMissing, page - 1);
      }
      if page > MAX_PAGES {
        return Err(TooManyPages), read;
      }
      if ServesPages(pages, limit.value, n) {
        PageServed(pages, limit.value, n, page, seen, bytes);
      }
      SeenNext(pages, page);
      var payload := pages(page);
      read := page;
      if payload.Failed? {
        return Err(RequestFailed), read;
      }
      if payload.data.None? {
        return Err(NotAList), read;
      }
      var values := payload.data.value;
      if |values| > limit.value {
        return Err(PageTooLong), read;
      }
      if |result| + |values| > MAX_RECORDS {
        return Err(LimitExceeded), read;
      }
      bytes := bytes + payload.bytes;
      if bytes > MAX_BYTES {
        return Err(SnapshotTooLarge), read;
      }
      if values in seen {
        return Err(RepeatedPage), read;
      }
      seen := seen + {values};
      if !payload.objects {
        return Err(NotAMapping), read;
      }
      UpToNext(pages, page - 1);
      result := result + values;
      if payload.meta.NoMeta? {
        if allowMissing {
          return Ok(result), read;
        }
        return Err(NoMetadata), read;
      }
      if payload.meta.NotNumeric? || payload.meta.number < page {
        return Err(NoAdvance), read;
      }
      if payload.meta.number > MAX_PAGES {
        return Err(TooManyPages), read;
      }
      lastPage := payload.meta.number;
      page := page + 1;
    }
    r := Ok(result);
  }
}
