/** Thread paging: one page from a cursor, the `around` page, and the whole history, against
    the plain list of visible rows. */
module ThreadPages {

  import opened Wrappers

  datatype Block = TextBlock | Ask | PeerSent | PeerReceived | OtherBlock

  datatype Message = Message(id: nat, seqNo: nat, runId: Option<nat>, blocks: seq<Block>)

  datatype Page = Page(messages: seq<Message>, olderCursor: Option<nat>)

  /** What the caller asks to see, and which runs are peer runs. */
  datatype View = View(peerRuns: set<nat>, includePeerRuns: bool, includePeerReceipts: bool)

  /** Stored order: sequence numbers strictly ascending. */
  ghost predicate Ordered(rows: seq<Message>) {
    forall i, j :: 0 <= i < j < |rows| ==> rows[i].seqNo < rows[j].seqNo
  }

  predicate Receipt(m: Message) {
    PeerSent in m.blocks || PeerReceived in m.blocks
  }

  predicate Visible(v: View, m: Message) {
    || v.includePeerRuns
    || m.runId.None? || m.runId.value !in v.peerRuns
    || PeerSent in m.blocks || PeerReceived in m.blocks || Ask in m.blocks || TextBlock in m.blocks
  }

  function VisibleRows(v: View, rows: seq<Message>): (kept: seq<Message>)
    ensures forall m :: m in kept <==> m in rows && Visible(v, m)
  {
    if rows == [] then []
    else VisibleRows(v, rows[..|rows| - 1]) + (if Visible(v, rows[|rows| - 1]) then [rows[|rows| - 1]] else [])
  }

  lemma {:induction false} VisibleConcat(v: View, a: seq<Message>, b: seq<Message>)
    ensures VisibleRows(v, a + b) == VisibleRows(v, a) + VisibleRows(v, b)
    decreases |b|
  {
    if b == [] {
      assert a + b == a;
    } else {
      var n := |b| - 1;
      assert (a + b)[..|a + b| - 1] == a + b[..n];
      VisibleConcat(v, a, b[..n]);
    }
  }

  lemma {:induction false} VisibleAll(v: View, rows: seq<Message>)
    requires v.includePeerRuns
    ensures VisibleRows(v, rows) == rows
  {
    if rows != [] { VisibleAll(v, rows[..|rows| - 1]); }
  }

  // ---- queries ----

  /** How many rows lie below the cursor; all of them without one. */
  function Below(rows: seq<Message>, cursor: Option<nat>): (n: nat)
    ensures n <= |rows|
  {
    if rows == [] then 0
    else if cursor.None? || rows[|rows| - 1].seqNo < cursor.value then |rows|
    else Below(rows[..|rows| - 1], cursor)
  }

  lemma {:induction false} BelowIsIndex(rows: seq<Message>, i: nat)
    requires Ordered(rows) && i < |rows|
    ensures Below(rows, Some(rows[i].seqNo)) == i
  {
    var n := |rows| - 1;
    if i < n {
      assert rows[..n][i] == rows[i];
      BelowIsIndex(rows[..n], i);
    } else if n > 0 {
      assert rows[..n][n - 1].seqNo < rows[n].seqNo;
    }
  }

  /** The rows below a cursor are those with smaller sequence numbers. */
  lemma {:induction false} BelowMeans(rows: seq<Message>, cursor: nat)
    requires Ordered(rows)
    ensures forall i :: 0 <= i < |rows| ==> (i < Below(rows, Some(cursor)) <==> rows[i].seqNo < cursor)
  {
    if rows != [] && rows[|rows| - 1].seqNo >= cursor {
      BelowMeans(rows[..|rows| - 1], cursor);
      assert forall i :: 0 <= i < |rows| - 1 ==> rows[..|rows| - 1][i] == rows[i];
    }
  }

  function Reverse(rows: seq<Message>): (r: seq<Message>)
    ensures |r| == |rows| && forall i :: 0 <= i < |rows| ==> r[i] == rows[|rows| - 1 - i]
  {
    if rows == [] then [] else [rows[|rows| - 1]] + Reverse(rows[..|rows| - 1])
  }

  /** `findMany` newest first, at most `limit` rows below the cursor. */
  function Newest(rows: seq<Message>, cursor: Option<nat>, limit: nat): seq<Message> {
    var n := Below(rows, cursor);
    Reverse(rows[if n < limit then 0 else n - limit..n])
  }

  // ---- one page ----

  predicate Substantive(kept: seq<Message>) {
    exists m :: m in kept && !Receipt(m)
  }

  /** The page whose raw rows end before index `n`; receipt-only pages are skipped unless wanted. */
  function PageAt(v: View, rows: seq<Message>, n: nat, size: nat): Page
    requires n <= |rows| && size >= 1
    decreases n
  {
    var from := if n < size then 0 else n - size;
    var raw := rows[from..n];
    if Substantive(VisibleRows(v, raw)) || v.includePeerReceipts || from == 0 || v.includePeerRuns then
      Page(VisibleRows(v, raw), if from > 0 then Some(rows[from].seqNo) else None)
    else PageAt(v, rows, from, size)
  }

  method WithoutPeerRunMessages(v: View, rows: seq<Message>) returns (kept: seq<Message>)
    ensures kept == VisibleRows(v, rows)
    ensures forall m :: m in kept <==>
      (m in rows && (v.includePeerRuns || m.runId.None? || m.runId.value !in v.peerRuns
                     || exists b :: b in m.blocks && b != OtherBlock))
  {
    AnyShown();
    kept := [];
    for i := 0 to |rows|
      invariant kept == VisibleRows(v, rows[..i])
    {
      assert rows[..i + 1][..i] == rows[..i];
      if Visible(v, rows[i]) { kept := kept + [rows[i]]; }
    }
    assert rows[..|rows|] == rows;
  }

  lemma AnyShown()
    ensures forall m: Message :: (exists b :: b in m.blocks && b != OtherBlock) <==>
      PeerSent in m.blocks || PeerReceived in m.blocks || Ask in m.blocks || TextBlock in m.blocks
  {
  }

  /** Fetching one row more than the page shows tells whether older rows exist. */
  lemma FetchedPage(rows: seq<Message>, cursor: Option<nat>, size: nat)
    ensures var found, n := Newest(rows, cursor, size + 1), Below(rows, cursor);
      && (|found| > size <==> n > size)
      && Reverse(if |found| > size then found[..size] else found) == rows[if n < size then 0 else n - size..n]
  {
  }

  // ---- how much one page holds ----

  /** A page shows what is visible of the `size` rows before index `m`; the rows it skipped, whole pages of
      them, had only receipts to show; and it says where the rows before it end exactly if there are any. */
  predicate Shows(v: View, rows: seq<Message>, n: nat, size: nat, m: nat, page: Page)
    requires m <= n <= |rows| && size >= 1
  {
    var raw := rows[if m < size then 0 else m - size..m];
    && page.messages == VisibleRows(v, raw)
    && (m == n || !(v.includePeerReceipts || v.includePeerRuns))
    && !Substantive(VisibleRows(v, rows[m..n])) && WholePages(n - m, size)
    && (Substantive(page.messages) || v.includePeerReceipts || v.includePeerRuns || m <= size)
    && page.olderCursor == if m > size then Some(raw[0].seqNo) else None
  }

  lemma {:induction false} PageShows(v: View, rows: seq<Message>, n: nat, size: nat) returns (m: nat)
    requires n <= |rows| && size >= 1
    ensures m <= n && Shows(v, rows, n, size, m, PageAt(v, rows, n, size))
    decreases n
  {
    if Stops(v, rows, n, size) {
      m := n;
      ShowsAtOnce(v, rows, n, size);
    } else {
      m := PageShows(v, rows, n - size, size);
      ShowsLater(v, rows, n, size, m);
    }
  }

  /** The window that ends before index `n` is the one to show. */
  predicate Stops(v: View, rows: seq<Message>, n: nat, size: nat)
    requires n <= |rows|
  {
    n <= size || Substantive(VisibleRows(v, rows[n - size..n])) || v.includePeerReceipts || v.includePeerRuns
  }

  lemma ShowsAtOnce(v: View, rows: seq<Message>, n: nat, size: nat)
    requires n <= |rows| && size >= 1 && Stops(v, rows, n, size)
    ensures Shows(v, rows, n, size, n, PageAt(v, rows, n, size))
  {
    assert rows[n..n] == [];
  }

  lemma ShowsLater(v: View, rows: seq<Message>, n: nat, size: nat, m: nat)
    requires n <= |rows| && size >= 1 && !Stops(v, rows, n, size) && m <= n - size
    requires Shows(v, rows, n - size, size, m, PageAt(v, rows, n - size, size))
    ensures Shows(v, rows, n, size, m, PageAt(v, rows, n, size))
  {
    ReceiptsTogether(v, rows, m, n - size, n);
  }

  lemma ReceiptsTogether(v: View, rows: seq<Message>, m: nat, k: nat, n: nat)
    requires m <= k <= n <= |rows|
    requires !Substantive(VisibleRows(v, rows[m..k])) && !Substantive(VisibleRows(v, rows[k..n]))
    ensures !Substantive(VisibleRows(v, rows[m..n]))
  {
    assert rows[m..n] == rows[m..k] + rows[k..n];
    VisibleConcat(v, rows[m..k], rows[k..n]);
  }

  /** That many rows are a number of pages. */
  predicate WholePages(rows: nat, size: nat)
    requires size >= 1
  {
    rows == 0 || (rows >= size && WholePages(rows - size, size))
  }

  /** No page shows more than `size` messages, and one whose window is wanted whole is exactly the `size`
      newest rows below the cursor, or all of them if there are fewer. */
  predicate PageFits(v: View, rows: seq<Message>, n: nat, size: nat, page: Page)
    requires n <= |rows| && size >= 1
  {
    var newest := rows[if n < size then 0 else n - size..n];
    && |page.messages| <= size
    && (v.includePeerRuns || (Substantive(newest) && forall m :: m in newest ==> Visible(v, m)) ==>
          && page.messages == newest
          && page.olderCursor == if n > size then Some(newest[0].seqNo) else None)
  }

  lemma {:induction false} VisibleFew(v: View, rows: seq<Message>)
    ensures |VisibleRows(v, rows)| <= |rows|
  {
    if rows != [] { VisibleFew(v, rows[..|rows| - 1]); }
  }

  lemma {:induction false} VisibleWhole(v: View, rows: seq<Message>)
    requires AllVisible(v, rows)
    ensures VisibleRows(v, rows) == rows
  {
    if rows != [] {
      InitVisible(v, rows);
      VisibleWhole(v, rows[..|rows| - 1]);
      InitLast(rows);
    }
  }

  predicate AllVisible(v: View, rows: seq<Message>) {
    forall i :: 0 <= i < |rows| ==> Visible(v, rows[i])
  }

  lemma InitVisible(v: View, rows: seq<Message>)
    requires rows != [] && AllVisible(v, rows)
    ensures AllVisible(v, rows[..|rows| - 1]) && Visible(v, rows[|rows| - 1])
  {
  }

  lemma InitLast(rows: seq<Message>)
    requires rows != []
    ensures rows == rows[..|rows| - 1] + [rows[|rows| - 1]]
  {
  }

  lemma {:induction false} PageHolds(v: View, rows: seq<Message>, n: nat, size: nat)
    requires n <= |rows| && size >= 1
    ensures PageFits(v, rows, n, size, PageAt(v, rows, n, size))
    decreases n
  {
    var from := if n < size then 0 else n - size;
    VisibleFew(v, rows[from..n]);
    if AllVisible(v, rows[from..n]) { VisibleWhole(v, rows[from..n]); }
    if from > 0 { PageHolds(v, rows, from, size); }
  }

  /** The cursor loop of loadMessagePage. */
  method LoadMessagePage(v: View, rows: seq<Message>, before: Option<nat>, size: nat) returns (page: Page)
    requires Ordered(rows) && size >= 1
    ensures page == PageAt(v, rows, Below(rows, before), size)
    ensures PageFits(v, rows, Below(rows, before), size, page)
  {
    PageHolds(v, rows, Below(rows, before), size);
    var cursor := before;
    ghost var n := Below(rows, cursor);
    while true
      invariant n == Below(rows, cursor) && PageAt(v, rows, n, size) == PageAt(v, rows, Below(rows, before), size)
      decreases n
    {
      var found := Newest(rows, cursor, size + 1);
      var hasOlder := |found| > size;
      var pageRows := Reverse(if hasOlder then found[..size] else found);
      FetchedPage(rows, cursor, size);
      ghost var from := if n < size then 0 else n - size;
      var visibleRows := WithoutPeerRunMessages(v, pageRows);
      if Substantive(visibleRows) || v.includePeerReceipts || !hasOlder || v.includePeerRuns {
        return Page(visibleRows, if hasOlder then Some(pageRows[0].seqNo) else None);
      }
      BelowIsIndex(rows, from);
      cursor := Some(pageRows[0].seqNo);
      n := from;
    }
  }

  // ---- paging to the end ----

  /** Everything a client collects by following `olderCursor` to the end, oldest first. */
  function Collected(v: View, rows: seq<Message>, n: nat, size: nat): seq<Message>
    requires n <= |rows| && size >= 1 && Ordered(rows)
    decreases n
  {
    var page := PageAt(v, rows, n, size);
    if page.olderCursor.None? then page.messages
    else
      var m := Below(rows, page.olderCursor);
      CursorDescends(v, rows, n, size);
      Collected(v, rows, m, size) + page.messages
  }

  /** Each cursor lies strictly below the rows of its page, so paging ends. */
  lemma {:induction false} CursorDescends(v: View, rows: seq<Message>, n: nat, size: nat)
    requires n <= |rows| && size >= 1 && Ordered(rows)
    ensures var page := PageAt(v, rows, n, size);
      page.olderCursor.Some? ==> Below(rows, page.olderCursor) < n && Below(rows, page.olderCursor) > 0
    decreases n
  {
    var from := if n < size then 0 else n - size;
    if from > 0 {
      BelowIsIndex(rows, from);
      CursorDescends(v, rows, from, size);
    }
  }

  /** `a` is `b` with only receipts left out, everything else in place. */
  ghost predicate Thinned(a: seq<Message>, b: seq<Message>)
    decreases |b|
  {
    if b == [] then a == []
    else
      var last := b[|b| - 1];
      || (a != [] && a[|a| - 1] == last && Thinned(a[..|a| - 1], b[..|b| - 1]))
      || (Receipt(last) && Thinned(a, b[..|b| - 1]))
  }

  lemma {:induction false} ThinnedConcat(a1: seq<Message>, b1: seq<Message>, a2: seq<Message>, b2: seq<Message>)
    requires Thinned(a1, b1) && Thinned(a2, b2)
    ensures Thinned(a1 + a2, b1 + b2)
    decreases |b2|
  {
    if b2 == [] {
      assert a1 + a2 == a1 && b1 + b2 == b1;
    } else {
      var n := |b2| - 1;
      assert (b1 + b2)[..|b1 + b2| - 1] == b1 + b2[..n];
      if a2 != [] && a2[|a2| - 1] == b2[n] && Thinned(a2[..|a2| - 1], b2[..n]) {
        assert (a1 + a2)[..|a1 + a2| - 1] == a1 + a2[..|a2| - 1];
        ThinnedConcat(a1, b1, a2[..|a2| - 1], b2[..n]);
      } else {
        ThinnedConcat(a1, b1, a2, b2[..n]);
      }
    }
  }

  lemma {:induction false} ThinnedSelf(b: seq<Message>)
    ensures Thinned(b, b)
  {
    if b != [] { ThinnedSelf(b[..|b| - 1]); }
  }

  lemma {:induction false} ThinnedAway(b: seq<Message>)
    requires forall m :: m in b ==> Receipt(m)
    ensures Thinned([], b)
  {
    if b != [] { ThinnedAway(b[..|b| - 1]); }
  }

  /** What "only receipts left out" means: in order, without repeats, nothing else missing, nothing new. */
  lemma {:induction false} ThinnedMeans(a: seq<Message>, b: seq<Message>)
    requires Thinned(a, b) && Ordered(b)
    ensures Ordered(a)
    ensures forall m :: m in a ==> m in b
    ensures forall m :: m in b && !Receipt(m) ==> m in a
    decreases |b|
  {
    if b != [] {
      var n := |b| - 1;
      assert b == b[..n] + [b[n]];
      if a != [] && a[|a| - 1] == b[n] && Thinned(a[..|a| - 1], b[..n]) {
        var k := |a| - 1;
        ThinnedMeans(a[..k], b[..n]);
        assert a == a[..k] + [b[n]];
        forall i, j | 0 <= i < j < |a| ensures a[i].seqNo < a[j].seqNo {
          if j == k {
            assert a[..k][i] in b[..n];
            var x :| 0 <= x < n && b[..n][x] == a[i];
            assert b[x].seqNo < b[n].seqNo;
          } else {
            assert a[..k][i].seqNo < a[..k][j].seqNo;
          }
        }
      } else {
        ThinnedMeans(a, b[..n]);
      }
    }
  }

  /** Where the page after this one ends. */
  function NextEnd(rows: seq<Message>, page: Page): (m: nat)
    ensures m <= |rows|
  {
    if page.olderCursor.Some? then Below(rows, page.olderCursor) else 0
  }

  /** A page covers the rows from `m` to `n`, up to receipts. */
  ghost predicate Covers(v: View, rows: seq<Message>, page: Page, m: nat, n: nat)
    requires m <= n <= |rows|
  {
    && Thinned(page.messages, VisibleRows(v, rows[m..n]))
    && (v.includePeerReceipts || v.includePeerRuns ==> page.messages == VisibleRows(v, rows[m..n]))
  }

  /** A skipped page had nothing but receipts to show. */
  lemma CoversSkipped(v: View, rows: seq<Message>, page: Page, m: nat, from: nat, n: nat)
    requires m <= from <= n <= |rows| && Covers(v, rows, page, m, from)
    requires !Substantive(VisibleRows(v, rows[from..n])) && !v.includePeerReceipts && !v.includePeerRuns
    ensures Covers(v, rows, page, m, n)
  {
    assert rows[m..n] == rows[m..from] + rows[from..n];
    VisibleConcat(v, rows[m..from], rows[from..n]);
    ThinnedAway(VisibleRows(v, rows[from..n]));
    ThinnedConcat(page.messages, VisibleRows(v, rows[m..from]), [], VisibleRows(v, rows[from..n]));
    assert page.messages + [] == page.messages;
  }

  /** One page covers the rows between its own end and the next page's. */
  lemma {:induction false} PageCovers(v: View, rows: seq<Message>, n: nat, size: nat)
    requires n <= |rows| && size >= 1 && Ordered(rows)
    ensures var page := PageAt(v, rows, n, size);
      NextEnd(rows, page) <= n && Covers(v, rows, page, NextEnd(rows, page), n)
    decreases n
  {
    var page := PageAt(v, rows, n, size);
    var from := if n < size then 0 else n - size;
    if from > 0 { BelowIsIndex(rows, from); }
    if Substantive(VisibleRows(v, rows[from..n])) || v.includePeerReceipts || from == 0 || v.includePeerRuns {
      ThinnedSelf(VisibleRows(v, rows[from..n]));
    } else {
      PageCovers(v, rows, from, size);
      CoversSkipped(v, rows, page, NextEnd(rows, page), from, n);
    }
  }

  lemma {:induction false} CollectedCovers(v: View, rows: seq<Message>, n: nat, size: nat)
    requires n <= |rows| && size >= 1 && Ordered(rows)
    ensures Thinned(Collected(v, rows, n, size), VisibleRows(v, rows[..n]))
    ensures v.includePeerReceipts || v.includePeerRuns ==>
              Collected(v, rows, n, size) == VisibleRows(v, rows[..n])
    decreases n
  {
    var page := PageAt(v, rows, n, size);
    PageCovers(v, rows, n, size);
    CursorDescends(v, rows, n, size);
    if page.olderCursor.None? {
      assert rows[0..n] == rows[..n];
    } else {
      var m := NextEnd(rows, page);
      assert rows[..n] == rows[..m] + rows[m..n];
      VisibleConcat(v, rows[..m], rows[m..n]);
      CollectedCovers(v, rows, m, size);
      ThinnedConcat(Collected(v, rows, m, size), VisibleRows(v, rows[..m]), page.messages, VisibleRows(v, rows[m..n]));
    }
  }

  lemma {:induction false} VisibleOrdered(v: View, rows: seq<Message>)
    requires Ordered(rows)
    ensures Ordered(VisibleRows(v, rows))
  {
    if rows != [] {
      var n := |rows| - 1;
      VisibleOrdered(v, rows[..n]);
      assert forall m :: m in VisibleRows(v, rows[..n]) ==> m.seqNo < rows[n].seqNo;
    }
  }

  /** Paging to the end agrees with the plain history for every page size: in order, without
      repeats, nothing invisible, nothing lost but pure receipts, and not even those when the
      caller asked for receipts or peer runs. */
  lemma PagingAgreesWithHistory(v: View, rows: seq<Message>, size: nat)
    requires Ordered(rows) && size >= 1
    ensures var all := Collected(v, rows, |rows|, size);
      && Ordered(all)
      && (forall m :: m in all ==> m in rows && Visible(v, m))
      && (forall m :: m in rows && Visible(v, m) && !Receipt(m) ==> m in all)
      && (v.includePeerReceipts || v.includePeerRuns ==> all == VisibleRows(v, rows))
      && (v.includePeerRuns ==> all == rows)
  {
    CollectedCovers(v, rows, |rows|, size);
    assert rows[..|rows|] == rows;
    VisibleOrdered(v, rows);
    ThinnedMeans(Collected(v, rows, |rows|, size), VisibleRows(v, rows));
    if v.includePeerRuns { VisibleAll(v, rows); }
  }

  function Flat(pages: seq<seq<Message>>): seq<Message> {
    if pages == [] then [] else Flat(pages[..|pages| - 1]) + pages[|pages| - 1]
  }

  function ReversePages(pages: seq<seq<Message>>): (r: seq<seq<Message>>)
    ensures |r| == |pages|
  {
    if pages == [] then [] else [pages[|pages| - 1]] + ReversePages(pages[..|pages| - 1])
  }

  lemma {:induction false} FlatCons(page: seq<Message>, pages: seq<seq<Message>>)
    ensures Flat([page] + pages) == page + Flat(pages)
  {
    if pages != [] {
      var n := |pages| - 1;
      assert ([page] + pages)[..n + 1] == [page] + pages[..n];
      FlatCons(page, pages[..n]);
      assert page + (Flat(pages[..n]) + pages[n]) == (page + Flat(pages[..n])) + pages[n];
    } else {
      assert [page] + pages == [page];
      assert Flat([page]) == Flat([]) + page;
    }
  }

  /** loadAllMessages: the do-while over pages with peer runs included returns the whole history. */
  method LoadAllMessages(peerRuns: set<nat>, rows: seq<Message>, size: nat) returns (all: seq<Message>)
    requires Ordered(rows) && size >= 1
    ensures all == rows
  {
    var v := View(peerRuns, true, false);
    var pages: seq<seq<Message>> := [];
    var before: Option<nat> := None;
    var more := true;
    ghost var n := |rows|;
    assert rows[n..] == [];
    while more
      invariant n <= |rows| && n == (if more then Below(rows, before) else 0)
      invariant Flat(ReversePages(pages)) == rows[n..]
      decreases more, n
    {
      var page := LoadMessagePage(v, rows, before, size);
      WholePage(v, rows, n, size);
      PrependPage(pages, page.messages, rows, NextEnd(rows, page), n);
      pages := pages + [page.messages];
      before := page.olderCursor;
      more := before.Some?;
      n := NextEnd(rows, page);
    }
    assert rows[0..] == rows;
    return Flat(ReversePages(pages));
  }

  lemma WholePage(v: View, rows: seq<Message>, n: nat, size: nat)
    requires n <= |rows| && size >= 1 && Ordered(rows) && v.includePeerRuns
    ensures var page := PageAt(v, rows, n, size);
      var m := NextEnd(rows, page);
      m <= n && page.messages == rows[m..n] && (page.olderCursor.Some? ==> m < n)
  {
    PageCovers(v, rows, n, size);
    CursorDescends(v, rows, n, size);
    VisibleAll(v, rows[NextEnd(rows, PageAt(v, rows, n, size))..n]);
  }

  lemma PrependPage(pages: seq<seq<Message>>, page: seq<Message>, rows: seq<Message>, m: nat, n: nat)
    requires m <= n <= |rows| && page == rows[m..n] && Flat(ReversePages(pages)) == rows[n..]
    ensures Flat(ReversePages(pages + [page])) == rows[m..]
  {
    assert (pages + [page])[..|pages|] == pages;
    FlatCons(page, ReversePages(pages));
    assert rows[m..n] + rows[n..] == rows[m..];
  }

  // ---- the page around a message ----

  /** `findMany` oldest first, at most `limit` rows with sequence numbers in the window. */
  function Window(rows: seq<Message>, low: nat, high: nat, limit: nat): seq<Message> {
    if rows == [] || limit == 0 then []
    else if low <= rows[0].seqNo <= high then [rows[0]] + Window(rows[1..], low, high, limit - 1)
    else Window(rows[1..], low, high, limit)
  }

  /** The raw rows of the page around `target`. */
  function AroundRows(rows: seq<Message>, target: nat, size: nat): seq<Message> {
    var half := size / 2;
    Window(rows, if target < half then 0 else target - half, target + half, size)
  }

  method LoadAround(v: View, rows: seq<Message>, target: nat, size: nat) returns (page: Page)
    requires Ordered(rows)
    ensures page.messages == VisibleRows(v, AroundRows(rows, target, size))
    ensures page.olderCursor ==
      var raw := AroundRows(rows, target, size);
      if raw != [] && (exists m :: m in rows && m.seqNo < raw[0].seqNo) then Some(raw[0].seqNo) else None
  {
    var half := size / 2;
    var minSeq := if target < half then 0 else target - half;
    var found := Window(rows, minSeq, target + half, size);
    var hasOlder := found != [] && Below(rows, Some(found[0].seqNo)) > 0;
    if found != [] { BelowCounts(rows, found[0].seqNo); }
    var messages := WithoutPeerRunMessages(v, found);
    page := Page(messages, if hasOlder then Some(found[0].seqNo) else None);
  }

  lemma {:induction false} BelowCounts(rows: seq<Message>, cursor: nat)
    requires Ordered(rows)
    ensures Below(rows, Some(cursor)) > 0 <==> exists m :: m in rows && m.seqNo < cursor
  {
    if rows != [] {
      var n := |rows| - 1;
      if rows[n].seqNo >= cursor {
        BelowCounts(rows[..n], cursor);
        assert rows == rows[..n] + [rows[n]];
      } else {
        assert rows[n] in rows;
      }
    }
  }

  /** The window keeps a row if fewer than `limit` rows of the window come before it; sequence
      numbers being distinct, at most target - low do. */
  lemma {:induction false} WindowKeeps(rows: seq<Message>, low: nat, high: nat, limit: nat, i: nat)
    requires Ordered(rows) && i < |rows| && low <= rows[i].seqNo <= high
    requires rows[i].seqNo - (if low < rows[0].seqNo then rows[0].seqNo else low) < limit
    ensures rows[i] in Window(rows, low, high, limit)
    decreases |rows|
  {
    if i > 0 {
      assert rows[1..][i - 1] == rows[i];
      assert rows[0].seqNo < rows[1].seqNo <= rows[i].seqNo;
      WindowKeeps(rows[1..], low, high, if low <= rows[0].seqNo then limit - 1 else limit, i - 1);
    }
  }

  lemma {:induction false} WindowWithin(rows: seq<Message>, low: nat, high: nat, limit: nat)
    ensures forall m :: m in Window(rows, low, high, limit) ==> m in rows && low <= m.seqNo <= high
    ensures |Window(rows, low, high, limit)| <= limit
  {
    if rows != [] && limit > 0 {
      WindowWithin(rows[1..], low, high, if low <= rows[0].seqNo <= high then limit - 1 else limit);
    }
  }

  /** The window holds, in order, the oldest rows between its two ends, all of them if they fit. */
  lemma WindowExact(rows: seq<Message>, low: nat, high: nat, limit: nat)
    requires Ordered(rows)
    ensures var w := Window(rows, low, high, limit);
      && Ordered(w)
      && forall m :: m in rows && low <= m.seqNo <= high ==> KeptOrFull(w, limit, m)
  {
    WindowOrdered(rows, low, high, limit);
    forall m | m in rows && low <= m.seqNo <= high ensures KeptOrFull(Window(rows, low, high, limit), limit, m) {
      var i :| 0 <= i < |rows| && rows[i] == m;
      WindowMisses(rows, low, high, limit, i);
    }
  }

  /** A row is left out only of a window that is full of older ones. */
  predicate KeptOrFull(w: seq<Message>, limit: nat, m: Message) {
    m in w || (|w| == limit && forall o :: o in w ==> o.seqNo < m.seqNo)
  }

  lemma {:induction false} WindowOrdered(rows: seq<Message>, low: nat, high: nat, limit: nat)
    requires Ordered(rows)
    ensures Ordered(Window(rows, low, high, limit))
  {
    if rows != [] && limit > 0 {
      var rest := if low <= rows[0].seqNo <= high then limit - 1 else limit;
      WindowOrdered(rows[1..], low, high, rest);
      WindowWithin(rows[1..], low, high, rest);
      FirstBefore(rows);
    }
  }

  lemma FirstBefore(rows: seq<Message>)
    requires rows != [] && Ordered(rows)
    ensures forall m :: m in rows[1..] ==> rows[0].seqNo < m.seqNo
  {
  }

  lemma {:induction false} WindowMisses(rows: seq<Message>, low: nat, high: nat, limit: nat, i: nat)
    requires Ordered(rows) && i < |rows| && low <= rows[i].seqNo <= high
    ensures KeptOrFull(Window(rows, low, high, limit), limit, rows[i])
    decreases i
  {
    if i > 0 && limit > 0 {
      assert rows[1..][i - 1] == rows[i] && rows[0].seqNo < rows[i].seqNo;
      WindowMisses(rows[1..], low, high, if low <= rows[0].seqNo <= high then limit - 1 else limit, i - 1);
    }
  }

  /** The page around a sequence number shows, before peer filtering, the oldest `size` rows at most half a
      page away from it, all of them if they fit. */
  lemma AroundShows(rows: seq<Message>, target: nat, size: nat)
    requires Ordered(rows)
    ensures var w := AroundRows(rows, target, size);
      && Ordered(w) && |w| <= size
      && (forall m :: m in w ==> m in rows && target - size / 2 <= m.seqNo <= target + size / 2)
      && forall m :: m in rows && target - size / 2 <= m.seqNo <= target + size / 2 ==>
           KeptOrFull(w, size, m)
  {
    var half := size / 2;
    WindowExact(rows, if target < half then 0 else target - half, target + half, size);
    WindowWithin(rows, if target < half then 0 else target - half, target + half, size);
  }

  /** For every page size from 1 and any gaps, the page around an existing row holds that row
      before peer filtering, although the window may span `size + 1` sequence numbers. */
  lemma AroundContainsTarget(rows: seq<Message>, i: nat, size: nat)
    requires Ordered(rows) && i < |rows| && size >= 1
    ensures rows[i] in AroundRows(rows, rows[i].seqNo, size)
    ensures |AroundRows(rows, rows[i].seqNo, size)| <= size
    ensures forall m :: m in AroundRows(rows, rows[i].seqNo, size) ==> m in rows
  {
    var target := rows[i].seqNo;
    var half := size / 2;
    var low := if target < half then 0 else target - half;
    assert rows[0].seqNo <= target;
    WindowKeeps(rows, low, target + half, size, i);
    WindowWithin(rows, low, target + half, size);
  }
}
